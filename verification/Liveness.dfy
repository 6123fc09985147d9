// Where runs come to rest. No run is orphaned unless the worker died over it, but for two shapes that
// nothing ever leaves; and a closed run stays closed.
module Liveness {
  import opened Wrappers
  import opened Pipeline
  import opened RunInvariant
  import opened Steps
  import opened HandlerSpec
  import opened RunSafety
  import opened RunProgress
  import opened Retry
  import opened JobQueue
  import opened Orchestration
  import opened WorldSafety
  import opened Locality
  import opened WorldFlow

  predicate HasLiveJob(q: Queue, key: RunKey) {
    exists id | id in q.jobs :: IsLive(q.jobs[id]) && q.jobs[id].key == key
  }

  // ---- Closed runs ----

  lemma TerminalHandler(w: World, id: nat, a: Answers, f: Faults)
    requires id in w.queue.jobs && IsLive(w.queue.jobs[id])
    requires w.queue.jobs[id].key in w.runs && IsTerminal(w.runs[w.queue.jobs[id].key].state)
    requires FlowsFor(w, w.queue.jobs[id].key)
    ensures var job := w.queue.jobs[id];
      Handle(job.kind, job.body, Open(w, job.key), a, f) == Open(w, job.key)
  {
    var job := w.queue.jobs[id];
    assert job.kind.ProduceSpec? ==> Drafts(job, job.key);
    hide IsServed, DraftedOnce, Unharmed, Handle;
    IdleIsNoOp(job.kind, job.body, Open(w, job.key), a, f);
  }

  lemma IdleSettles(w: World, id: nat, key: RunKey, f: Faults)
    requires id in w.queue.jobs && key in w.runs && NoDeath(f)
    ensures Settle(Put(w, key, Open(w, key)), id, key, Running, f) == Finish(w, id)
  {
    assert w.runs[key := w.runs[key]] == w.runs;
  }

  lemma TerminalProcessed(w: World, id: nat, c: Config, onSubscription: bool, a: Answers, f: Faults)
    requires WorldInv(w) && NoDeath(f)
    requires id in w.queue.jobs && Claimable(w.queue.jobs[id], w.now) && w.queue.jobs[id].key in w.runs
    requires IsTerminal(w.runs[w.queue.jobs[id].key].state) && FlowsFor(w, w.queue.jobs[id].key)
    ensures ProcessJob(w, id, c, onSubscription, a, f).runs == w.runs
  {
    hide WorldInv, FlowsFor, Handle, Put, Settle, MarkJobDone;
    var claimed := w.(queue := ClaimJob(w.queue, id, w.now));
    var job := w.queue.jobs[id];
    ClaimFlow(w, id);
    TerminalHandler(claimed, id, a, f);
    ExistingAdmitted(claimed, job, c, onSubscription, false);
    IdleSettles(claimed, id, job.key, f);
  }

  lemma TerminalNext(w: World, s: Step, c: Config, key: RunKey)
    requires WorldInv(w) && FlowsFor(w, key) && Survives(s)
    requires key in w.runs && IsTerminal(w.runs[key].state)
    ensures key in Next(w, s, c).runs && Next(w, s, c).runs[key] == w.runs[key]
  {
    hide WorldInv, FlowsFor, ProcessJob;
    match s
    case Delivered(d) =>
    case Worked(onSubscription, a, f) =>
      var id := NextClaimable(w.queue, 0, w.now);
      if id.Some? {
        if w.queue.jobs[id.value].key == key {
          TerminalProcessed(w, id.value, c, onSubscription, a, f);
        } else {
          ProcessJobLocal(w, id.value, c, onSubscription, a, f);
        }
      }
    case Swept(posts) =>
    case Waited(ms) =>
    case Crashed(d) =>
  }

  lemma {:induction false} TerminalAfter(w: World, steps: seq<Step>, c: Config, key: RunKey)
    requires WorldInv(w) && FlowsFor(w, key) && AllSurvive(steps)
    requires key in w.runs && IsTerminal(w.runs[key].state)
    ensures key in After(w, steps, c).runs && After(w, steps, c).runs[key] == w.runs[key]
  {
    hide WorldInv, FlowsFor, Next;
    if steps != [] {
      var earlier := steps[..|steps| - 1];
      TerminalAfter(w, earlier, c, key);
      AlwaysFlows(w, earlier, c, key);
      TerminalNext(After(w, earlier, c), steps[|steps| - 1], c, key);
    }
  }

  // Failed, aborted and unsupported are absorbing while the worker lives: nothing about such a run ever
  // changes, if it did not die over that run before.
  lemma TerminalForever(w: World, steps: seq<Step>, c: Config, key: RunKey)
    requires Reachable(w) && AllSurvive(steps)
    requires key in w.runs && IsTerminal(w.runs[key].state) && !Hurt(w, key)
    ensures key in After(w, steps, c).runs && After(w, steps, c).runs[key] == w.runs[key]
  {
    hide Reachable, WorldInv, FlowsFor, After, Hurt;
    ReachableFlows(w, key);
    TerminalAfter(w, steps, c, key);
  }

  // ---- Runs that nothing moves ----

  // No job that would act on the run is left, and no webhook or sweep would: it is not at a gate, and
  // not new.
  predicate Frozen(w: World, key: RunKey) {
    && key in w.runs && !IsGate(w.runs[key].state) && !w.runs[key].state.Received?
    && forall id | id in w.queue.jobs && IsLive(w.queue.jobs[id]) && w.queue.jobs[id].key == key ::
         !Acts(w.queue.jobs[id].kind, w.runs[key])
  }

  // The later history adds nothing but deaths of the worker.
  predicate OnlyDeaths(before: History, after: History) {
    before == after || (after.Then? && after.last.WorkerDied? && OnlyDeaths(before, after.past))
  }

  lemma {:induction false} OnlyDeathsTransitive(a: History, b: History, c: History)
    requires OnlyDeaths(a, b) && OnlyDeaths(b, c)
    ensures OnlyDeaths(a, c)
  {
    if b != c { OnlyDeathsTransitive(a, b, c.past); }
  }

  // Nothing but the record of the worker's deaths changes.
  predicate OnlyHistory(before: Run, after: Run) {
    after == before.(history := after.history) && OnlyDeaths(before.history, after.history)
  }

  lemma OnlyHistoryTransitive(a: Run, b: Run, c: Run)
    requires OnlyHistory(a, b) && OnlyHistory(b, c)
    ensures OnlyHistory(a, c)
  {
    hide OnlyDeaths;
    OnlyDeathsTransitive(a.history, b.history, c.history);
  }

  lemma ActsSame(kind: JobKind, before: Run, after: Run)
    requires OnlyHistory(before, after)
    ensures Acts(kind, before) == Acts(kind, after)
  {
  }

  lemma DeathOnly(r: Run)
    ensures OnlyHistory(r, r) && OnlyHistory(r, Note(r, WorkerDied))
    ensures Note(r, WorkerDied).state == r.state
  {
  }

  lemma StuckFinished(w: World, id: nat, key: RunKey, f: Faults)
    requires id in w.queue.jobs && w.queue.jobs[id].key == key && Frozen(w, key)
    ensures var r := Settle(Put(w, key, Open(w, key)), id, key, Running, f);
      Frozen(r, key) && OnlyHistory(w.runs[key], r.runs[key])
  {
    hide Acts, Note, OnlyHistory;
    assert w.runs[key := w.runs[key]] == w.runs;
    var r := Settle(Put(w, key, Open(w, key)), id, key, Running, f);
    DeathOnly(w.runs[key]);
    forall kind { ActsSame(kind, w.runs[key], r.runs[key]); }
  }

  lemma StuckDies(w: World, key: RunKey)
    requires Frozen(w, key)
    ensures Frozen(Die(w, key), key) && OnlyHistory(w.runs[key], Die(w, key).runs[key])
  {
    hide Acts, Note, OnlyHistory;
    DeathOnly(w.runs[key]);
    forall kind { ActsSame(kind, w.runs[key], Die(w, key).runs[key]); }
  }

  lemma StuckProcessed(w: World, id: nat, c: Config, onSubscription: bool, a: Answers, f: Faults)
    requires id in w.queue.jobs && Claimable(w.queue.jobs[id], w.now) && Frozen(w, w.queue.jobs[id].key)
    ensures var key := w.queue.jobs[id].key;
      var r := ProcessJob(w, id, c, onSubscription, a, f);
      Frozen(r, key) && OnlyHistory(w.runs[key], r.runs[key])
  {
    hide Acts, Handle, Put, Settle, Die;
    var job := w.queue.jobs[id];
    var claimed := w.(queue := ClaimJob(w.queue, id, w.now));
    ExistingAdmitted(claimed, job, c, onSubscription, f(At(90)) == Some(Died));
    IdleIsNoOp(job.kind, job.body, Open(claimed, job.key), a, f);
    StuckFinished(claimed, id, job.key, f);
    StuckDies(claimed, job.key);
  }

  lemma LocalFrozen(w: World, z: World, other: RunKey, key: RunKey)
    requires Local(w, z, other) && key != other && Frozen(w, key)
    ensures Frozen(z, key) && OnlyHistory(w.runs[key], z.runs[key])
  {
    hide Acts;
  }

  lemma FrozenNext(w: World, s: Step, c: Config, key: RunKey)
    requires WorldInv(w) && Frozen(w, key)
    ensures Frozen(Next(w, s, c), key) && OnlyHistory(w.runs[key], Next(w, s, c).runs[key])
  {
    hide WorldInv, ProcessJob;
    match s
    case Delivered(d) =>
    case Worked(onSubscription, a, f) =>
      hide Frozen, Acts;
      var id := NextClaimable(w.queue, 0, w.now);
      if id.Some? {
        FrozenHasRun(w, key);
        if w.queue.jobs[id.value].key == key {
          StuckProcessed(w, id.value, c, onSubscription, a, f);
        } else {
          ProcessJobLocal(w, id.value, c, onSubscription, a, f);
          LocalFrozen(w, Next(w, s, c), w.queue.jobs[id.value].key, key);
        }
      }
    case Swept(posts) =>
    case Waited(ms) =>
    case Crashed(d) =>
  }

  lemma FrozenHasRun(w: World, key: RunKey)
    requires Frozen(w, key)
    ensures key in w.runs
  {
  }

  // No retry, no webhook, no sweep and no restart of the worker ever moves such a run again.
  lemma {:induction false} FrozenForever(w: World, steps: seq<Step>, c: Config, key: RunKey)
    requires WorldInv(w) && Frozen(w, key)
    ensures Frozen(After(w, steps, c), key) && OnlyHistory(w.runs[key], After(w, steps, c).runs[key])
  {
    hide WorldInv, Next;
    if steps != [] {
      var earlier := steps[..|steps| - 1];
      FrozenForever(w, earlier, c, key);
      AlwaysSafe(w, earlier, c);
      FrozenNext(After(w, earlier, c), steps[|steps| - 1], c, key);
      FrozenHasRun(w, key);
      FrozenHasRun(After(w, earlier, c), key);
      OnlyHistoryTransitive(w.runs[key], After(w, earlier, c).runs[key], After(w, steps, c).runs[key]);
    }
  }

  // The one job that acts on a run which is neither new nor at a gate, if there is one at all.
  function Driver(r: Run): Option<JobKind> {
    match r.state
    case Acknowledged => Some(ProduceSpec)
    case Specifying => Some(if r.hasSpec then Clarify else ProduceSpec)
    case Specified => Some(ProducePlan)
    case Implementing => Some(Implement)
    case Reviewing => Some(Review)
    case Failed => if r.hasSpec then None else Some(ProduceSpec)
    case Aborted => if r.hasSpec then None else Some(ProduceSpec)
    case Unsupported => if r.hasSpec then None else Some(ProduceSpec)
    case _ => None
  }

  lemma DriverActs(r: Run, next: nat, kind: JobKind)
    requires RunInv(r, next, 0) && !IsGate(r.state) && !r.state.Received?
    ensures Acts(kind, r) <==> Driver(r) == Some(kind)
  {
    hide Watch, DoneCount, Gated, WithinCaps, TasksInOrder, MoneyAdds;
  }

  // Between two steps, however it got there, a run is frozen exactly if its driver is not in the queue:
  // always in Planning; after a death also in any other state whose job was never enqueued; and closed
  // unless a job that drafts its spec is left over.
  lemma FrozenIff(w: World, key: RunKey)
    requires WorldInv(w) && key in w.runs && !IsGate(w.runs[key].state) && !w.runs[key].state.Received?
    ensures Frozen(w, key) <==> Driver(w.runs[key]).None? || !Awaited(w.queue, key, Driver(w.runs[key]).value)
  {
    RunOk(w, key);
    forall kind { DriverActs(w.runs[key], w.nextTask, kind); }
    hide WorldInv, RunInv, Acts, Driver;
    var d := Driver(w.runs[key]);
    if d.Some? && Awaited(w.queue, key, d.value) {
      var id :| id in w.queue.jobs && Serves(w.queue.jobs[id], key, d.value);
    } else if d.Some? {
      assert forall id | id in w.queue.jobs :: !Serves(w.queue.jobs[id], key, d.value);
    }
  }

  // A run in Planning between two steps is stuck, however it got there; and so is one in Specifying
  // that has a spec but no clarify job.
  lemma StuckIsFrozen(w: World, key: RunKey)
    requires WorldInv(w) && key in w.runs && IsStuck(w.runs[key])
    ensures Frozen(w, key) <==> w.runs[key].state.Planning? || !Awaited(w.queue, key, Clarify)
  {
    hide WorldInv, Frozen, Awaited;
    FrozenIff(w, key);
  }

  // ---- Stranded runs ----

  predicate IsStranded(r: Run) {
    Watch(r.history).stranded
  }

  // The run has failed with its last attempt, or is stuck, and either way nothing moves it.
  predicate HasStayed(w: World, key: RunKey) {
    Frozen(w, key) && (w.runs[key].state.Failed? || IsStuck(w.runs[key]))
  }

  lemma StillStayed(w: World, s: Step, c: Config, key: RunKey)
    requires WorldInv(w) && HasStayed(w, key)
    ensures HasStayed(Next(w, s, c), key)
  {
    hide WorldInv, Next, Frozen;
    FrozenHasRun(w, key);
    FrozenNext(w, s, c, key);
    FrozenHasRun(Next(w, s, c), key);
  }

  // A clarify job never waits for a run without a spec.
  lemma NoClarifyYet(w: World, key: RunKey)
    requires WorldInv(w) && key in w.runs && !w.runs[key].hasSpec
    ensures !Awaited(w.queue, key, Clarify)
  {
    forall id | id in w.queue.jobs ensures !Serves(w.queue.jobs[id], key, Clarify) { FitOf(w, id); }
    hide WorldInv;
  }

  // What the worker's step leaves of a run that its handler has just got stuck.
  lemma StuckSettles(w: World, id: nat, key: RunKey, st: St, f: Faults)
    requires WorldInv(w) && id in w.queue.jobs && w.queue.jobs[id].key == key && key in w.runs
    requires st.status == Threw(Other) && GetsStuck(w.runs[key], st.run) && st.enq.None?
    ensures var z := Settle(Put(w, key, st), id, key, st.status, f);
      && key in z.runs && (z.runs[key].state.Failed? || IsStuck(z.runs[key]))
      && z.runs[key].state in {Failed, st.run.state} && z.runs[key].hasSpec == st.run.hasSpec
  {
    hide WorldInv, FailOrRetryJob, MarkJobDone, Note;
  }

  lemma SameAwaited(w: World, id: nat, key: RunKey, st: St, f: Faults, kind: JobKind)
    requires id in w.queue.jobs && st.enq.None? && IsLive(w.queue.jobs[id]) && WorldInv(w)
    requires Awaited(Settle(Put(w, key, st), id, key, st.status, f).queue, key, kind)
    ensures Awaited(w.queue, key, kind)
  {
    hide WorldInv, Settle;
    var put := Put(w, key, st);
    var z := Settle(put, id, key, st.status, f);
    SettleOnlyJob(put, id, key, st.status, f);
    var j :| j in z.queue.jobs && Serves(z.queue.jobs[j], key, kind);
    assert Serves(w.queue.jobs[j], key, kind);
  }

  lemma SettleMarks(w: World, id: nat, key: RunKey, status: Status, f: Faults)
    requires id in w.queue.jobs && key in w.runs
    ensures var z := Settle(w, id, key, status, f);
      key in z.runs && IsStranded(z.runs[key]) == IsStranded(w.runs[key])
  {
    hide FailOrRetryJob, MarkJobDone, Die, CloseRun, IsStranded;
    var retried := w.(queue := FailOrRetryJob(w.queue, id, w.now));
    DieMarks(w, key);
    CloseMarks(w, key);
    DieMarks(CloseRun(w, key), key);
    CloseMarks(retried, key);
    DieMarks(retried, key);
  }

  lemma DieMarks(w: World, key: RunKey)
    requires key in w.runs
    ensures key in Die(w, key).runs && IsStranded(Die(w, key).runs[key]) == IsStranded(w.runs[key])
  {
    hide Watch;
  }

  lemma CloseMarks(w: World, key: RunKey)
    requires key in w.runs
    ensures key in CloseRun(w, key).runs && IsStranded(CloseRun(w, key).runs[key]) == IsStranded(w.runs[key])
  {
    hide Watch;
  }

  lemma LeavesStrands(kind: JobKind, st: St, r: St)
    requires Leaves(kind, st, r) && Watch(r.run.history).stranded && !Watch(st.run.history).stranded
    ensures r.status == Threw(Other) && GetsStuck(st.run, r.run) && r.enq == st.enq
  {
    hide CountersKept, MayFollow, Ready, Watch;
  }

  lemma DispatchStays(w: World, id: nat, a: Answers, f: Faults)
    requires WorldInv(w) && id in w.queue.jobs && w.queue.jobs[id].status.InProgress? && w.queue.jobs[id].key in w.runs
    requires !Watch(w.runs[w.queue.jobs[id].key].history).stranded
    ensures var z := Dispatch(w, id, a, f);
      var key := w.queue.jobs[id].key;
      key in z.runs && (Watch(z.runs[key].history).stranded ==> HasStayed(z, key))
  {
    hide WorldInv, RunInv, Handle, Put, Settle, Leaves, Served, Drafting, Relays, Ready, Voiced, Frozen, Watch;
    var job := w.queue.jobs[id];
    var key := job.key;
    var st := Handle(job.kind, job.body, Open(w, key), a, f);
    var z := Dispatch(w, id, a, f);
    FitsItsRun(w, id);
    HandleSafe(job.kind, job.body, Open(w, key), a, f);
    HandleProgress(job.kind, job.body, Open(w, key), a, f);
    PutKeepsJob(w, key, st, id);
    PutsRun(w, key, st);
    SettleMarks(Put(w, key, st), id, key, st.status, f);
    if Watch(z.runs[key].history).stranded {
      LeavesStrands(job.kind, Open(w, key), st);
      StuckHasSpec(w.runs[key], st);
      DispatchSafe(w, id, a, f);
      SettledFrozen(w, id, key, st, f);
    }
  }

  lemma PutsRun(w: World, key: RunKey, st: St)
    ensures key in Put(w, key, st).runs && Put(w, key, st).runs[key] == st.run
  {
  }

  lemma StuckHasSpec(before: Run, st: St)
    requires Ok(st) && GetsStuck(before, st.run)
    ensures st.run.hasSpec
  {
    hide Watch, DoneCount, Gated, WithinCaps, TasksInOrder, MoneyAdds;
  }

  // Stuck, and with no clarify job: frozen.
  lemma SettledFrozen(w: World, id: nat, key: RunKey, st: St, f: Faults)
    requires WorldInv(w) && id in w.queue.jobs && w.queue.jobs[id].key == key && IsLive(w.queue.jobs[id]) && key in w.runs
    requires id in Put(w, key, st).queue.jobs
    requires st.status == Threw(Other) && GetsStuck(w.runs[key], st.run) && st.enq.None? && st.run.hasSpec
    requires WorldInv(Settle(Put(w, key, st), id, key, st.status, f))
    ensures HasStayed(Settle(Put(w, key, st), id, key, st.status, f), key)
  {
    hide WorldInv, RunInv, Settle, Put, Frozen, Acts;
    var z := Settle(Put(w, key, st), id, key, st.status, f);
    StuckSettles(w, id, key, st, f);
    FrozenIff(z, key);
    if !w.runs[key].hasSpec {
      NoClarifyYet(w, key);
      if Awaited(z.queue, key, Clarify) { SameAwaited(w, id, key, st, f, Clarify); }
    }
  }

  lemma AdmittedNotStranded(w: World, job: Job, c: Config, onSubscription: bool, dies: bool)
    requires job.key in w.runs ==> !IsStranded(w.runs[job.key])
    ensures var r := Admit(w, job, c, onSubscription, dies);
      && (job.key in r.runs ==> !IsStranded(r.runs[job.key]))
      && (job.key in r.runs ==> !IsStranded(Die(r, job.key).runs[job.key]))
      && r.queue == w.queue
  {
    hide BirthBudget;
  }

  lemma FinishedNotStranded(w: World, id: nat, key: RunKey, f: Faults)
    requires id in w.queue.jobs && key !in w.runs
    ensures key !in Settle(w, id, key, Running, f).runs
  {
  }

  // The worker strands a run only by getting it stuck for good.
  lemma ProcessJobStays(w: World, id: nat, c: Config, onSubscription: bool, a: Answers, f: Faults)
    requires WorldInv(w) && id in w.queue.jobs && Claimable(w.queue.jobs[id], w.now)
    requires w.queue.jobs[id].key in w.runs ==> !IsStranded(w.runs[w.queue.jobs[id].key])
    ensures var key := w.queue.jobs[id].key;
      var z := ProcessJob(w, id, c, onSubscription, a, f);
      key in z.runs && IsStranded(z.runs[key]) ==> HasStayed(z, key)
  {
    hide WorldInv, Admit, Settle, Dispatch, Die, HasStayed, Watch;
    var job := w.queue.jobs[id];
    var dies := f(At(90)) == Some(Died);
    var claimed := w.(queue := ClaimJob(w.queue, id, w.now));
    var admitted := Admit(claimed, job, c, onSubscription, dies);
    ClaimSafe(w, id);
    AdmitSafe(claimed, job, c, onSubscription, dies);
    AdmittedNotStranded(claimed, job, c, onSubscription, dies);
    if f(At(89)) == Some(Died) {
      DiesOnlyThere(claimed, job.key);
      if job.key in w.runs { DieMarks(claimed, job.key); }
    } else if dies {
      DiesOnlyThere(admitted, job.key);
    } else if job.key !in admitted.runs {
      FinishedNotStranded(admitted, id, job.key, f);
    } else {
      DispatchStays(admitted, id, a, f);
    }
  }

  lemma DiesOnlyThere(w: World, key: RunKey)
    ensures Die(w, key).runs.Keys == w.runs.Keys
  {
  }

  lemma NextStays(w: World, s: Step, c: Config, key: RunKey)
    requires WorldInv(w) && (key in w.runs && IsStranded(w.runs[key]) ==> HasStayed(w, key))
    requires key in Next(w, s, c).runs && IsStranded(Next(w, s, c).runs[key])
    ensures HasStayed(Next(w, s, c), key)
  {
    hide WorldInv, ProcessJob, HasStayed, IsStranded;
    if key in w.runs && IsStranded(w.runs[key]) {
      StillStayed(w, s, c, key);
    } else {
      match s
      case Delivered(d) => DeliveryKeepsMarks(w, d, key);
      case Worked(onSubscription, a, f) =>
        var id := NextClaimable(w.queue, 0, w.now);
        if id.Some? {
          if w.queue.jobs[id.value].key == key {
            ProcessJobStays(w, id.value, c, onSubscription, a, f);
          } else {
            ProcessJobLocal(w, id.value, c, onSubscription, a, f);
          }
        }
      case Swept(posts) => SweptKeepsMarks(w.runs[key], w.now, Outcome(w, posts, key));
      case Waited(ms) =>
      case Crashed(d) =>
    }
  }

  lemma DeliveryKeepsMarks(w: World, d: Delivery, key: RunKey)
    ensures key in Deliver(w, d).runs <==> key in w.runs
    ensures key in w.runs ==> IsStranded(Deliver(w, d).runs[key]) == IsStranded(w.runs[key])
  {
    hide Watch;
  }

  lemma SweptKeepsMarks(r: Run, now: int, post: PostOutcome)
    ensures IsStranded(SweptRun(r, now, post)) == IsStranded(r)
  {
  }

  lemma {:induction false} AlwaysStays(w: World, steps: seq<Step>, c: Config, key: RunKey)
    requires WorldInv(w) && (key in w.runs && IsStranded(w.runs[key]) ==> HasStayed(w, key))
    ensures var r := After(w, steps, c);
      key in r.runs && IsStranded(r.runs[key]) ==> HasStayed(r, key)
  {
    hide WorldInv, Next, HasStayed, IsStranded;
    if steps != [] {
      var earlier := steps[..|steps| - 1];
      AlwaysSafe(w, earlier, c);
      AlwaysStays(w, earlier, c, key);
      var last := After(w, earlier, c);
      var r := Next(last, steps[|steps| - 1], c);
      if key in r.runs && IsStranded(r.runs[key]) { NextStays(last, steps[|steps| - 1], c, key); }
    }
  }

  // A run whose history is marked by a throw in one of the two windows has failed with its last attempt
  // or is stuck in one of two shapes; either way nothing ever moves it again.
  lemma StrandedForGood(w: World, key: RunKey)
    requires Reachable(w) && key in w.runs && IsStranded(w.runs[key])
    ensures w.runs[key].state.Failed? || IsStuck(w.runs[key])
    ensures Frozen(w, key)
  {
    hide WorldInv, After, Frozen, IsStranded;
    var now, steps, c :| w == After(Initial(now), steps, c);
    InitialInv(now);
    AlwaysStays(Initial(now), steps, c, key);
  }

  // In every reachable state, a run that has no job left and over which the worker never died is neither
  // parked at a gate nor closed exactly if a throw in one of the two windows stranded it and its job was
  // not dead-lettered; and then it is stuck in one of two shapes, for good.
  lemma NoOrphanedRun(w: World, key: RunKey)
    requires Reachable(w) && key in w.runs && !HasLiveJob(w.queue, key) && !Hurt(w, key)
    ensures var r := w.runs[key];
      && (!IsGate(r.state) && !IsTerminal(r.state) <==> IsStranded(r) && !r.state.Failed?)
      && (!IsGate(r.state) && !IsTerminal(r.state) ==> IsStuck(r) && Frozen(w, key))
  {
    ReachableFlows(w, key);
    hide WorldInv, Reachable, Watch, Drafted, DraftedOnce, Unharmed, Frozen;
    if IsStranded(w.runs[key]) { StrandedForGood(w, key); }
    assert IsServed(w.queue, key, w.runs[key]);
  }

  lemma AwaitedActs(w: World, key: RunKey, id: nat, kind: JobKind)
    requires WorldInv(w) && key in w.runs && id in w.queue.jobs && Serves(w.queue.jobs[id], key, kind)
    requires Needs(w.runs[key]) == Wait(kind)
    ensures Acts(kind, w.runs[key])
  {
    hide WorldInv, RunInv, Needs, Acts;
    FitsItsRun(w, id);
    var st := Open(w, key);
    if !Acts(kind, w.runs[key]) { IdleIsNotNeeded(kind, st); }
  }

  // There are two ways to lose a run, and no third: a throw in one of the two windows, or the death of the
  // worker over one of its own jobs.
  lemma LostOnlySo(w: World, key: RunKey)
    requires Reachable(w) && Frozen(w, key) && !IsTerminal(w.runs[key].state)
    ensures IsStranded(w.runs[key]) || Hurt(w, key)
  {
    hide Reachable, WorldInv, Watch, Drafted, DraftedOnce, Unharmed, Acts;
    if !Hurt(w, key) {
      ReachableFlows(w, key);
      assert IsServed(w.queue, key, w.runs[key]);
      if Needs(w.runs[key]).Wait? {
        var kind := Needs(w.runs[key]).kind;
        var id :| id in w.queue.jobs && Serves(w.queue.jobs[id], key, kind);
        AwaitedActs(w, key, id, kind);
      }
    }
  }
}
