// No run is ever left without the job its state waits for, unless the worker has died over one of its jobs.
module WorldFlow {
  import opened Wrappers
  import opened Pipeline
  import opened RunInvariant
  import opened Steps
  import opened HandlerSpec
  import opened RunSafety
  import opened RunProgress
  import opened Retry
  import opened JobQueue
  import opened Orchestration
  import opened WorldSafety
  import opened Locality

  predicate Serves(j: Job, key: RunKey, kind: JobKind) {
    IsLive(j) && j.key == key && j.kind == kind
  }

  predicate Awaited(q: Queue, key: RunKey, kind: JobKind) {
    exists id | id in q.jobs :: Serves(q.jobs[id], key, kind)
  }

  // The job that a run's state waits for is in the queue.
  predicate IsServed(q: Queue, key: RunKey, r: Run) {
    match Needs(r)
    case Nothing => true
    case Wait(kind) => Awaited(q, key, kind)
    case Unreachable => false
  }

  predicate Drafts(j: Job, key: RunKey) {
    IsLive(j) && j.kind.ProduceSpec? && j.key == key
  }

  // A job drafts the spec of the run only while the run waits for its spec or has it.
  ghost predicate Drafted(w: World, key: RunKey) {
    forall id | id in w.queue.jobs && Drafts(w.queue.jobs[id], key) :: key in w.runs && Drafting(w.runs[key])
  }

  // At most one job does.
  ghost predicate DraftedOnce(q: Queue, key: RunKey) {
    forall i, j | i in q.jobs && j in q.jobs && Drafts(q.jobs[i], key) && Drafts(q.jobs[j], key) :: i == j
  }

  function Deaths(r: Run): nat {
    Watch(r.history).deaths
  }

  // The worker never died over a job of this run, and the run's plan was recorded whole.
  predicate Unharmed(r: Run) {
    Deaths(r) == 0 && PlanIsWhole(r)
  }

  predicate StaysUnharmed(before: Run, after: Run) {
    SameDeaths(before, after) && (PlanIsWhole(before) ==> PlanIsWhole(after))
  }

  // Everything that keeps the run `key` going is in place.
  ghost predicate FlowsFor(w: World, key: RunKey) {
    && Drafted(w, key) && DraftedOnce(w.queue, key)
    && (key in w.runs ==> IsServed(w.queue, key, w.runs[key]) && Unharmed(w.runs[key]))
  }

  // The worker died over a job of this run.
  predicate Hurt(w: World, key: RunKey) {
    key in w.runs && Deaths(w.runs[key]) > 0
  }

  ghost predicate Flowing(w: World, key: RunKey) {
    Hurt(w, key) || FlowsFor(w, key)
  }

  // All runs keep going.
  ghost predicate FlowInv(w: World) {
    forall key :: FlowsFor(w, key)
  }

  // ---- Claiming and admitting ----

  lemma ClaimFlow(w: World, id: nat)
    requires id in w.queue.jobs && Claimable(w.queue.jobs[id], w.now) && FlowsFor(w, w.queue.jobs[id].key)
    ensures FlowsFor(w.(queue := ClaimJob(w.queue, id, w.now)), w.queue.jobs[id].key)
  {
    hide Needs, Drafting, Unharmed;
    var key := w.queue.jobs[id].key;
    var r := w.(queue := ClaimJob(w.queue, id, w.now));
    if key in w.runs && Needs(w.runs[key]).Wait? {
      var kind := Needs(w.runs[key]).kind;
      var j :| j in w.queue.jobs && Serves(w.queue.jobs[j], key, kind);
      assert Serves(r.queue.jobs[j], key, kind);
    }
  }

  // A new run waits for the job that created it.
  lemma BornFlow(w: World, id: nat, r: World, budget: int)
    requires WorldInv(w) && id in w.queue.jobs && w.queue.jobs[id].kind.IssueOpened? && IsLive(w.queue.jobs[id])
    requires FlowsFor(w, w.queue.jobs[id].key)
    requires var key := w.queue.jobs[id].key;
      key !in w.runs && r == w.(runs := w.runs[key := NewRun(w.now, budget)], order := r.order)
    ensures FlowsFor(r, w.queue.jobs[id].key)
  {
    hide QueueInv, RunInv, Ready, Voiced;
    assert Serves(r.queue.jobs[id], w.queue.jobs[id].key, IssueOpened);
    forall i | i in w.queue.jobs ensures JobFits(w.runs, w.queue.jobs[i]) {
    }
  }

  lemma AdmitFlow(w: World, id: nat, c: Config, onSubscription: bool)
    requires WorldInv(w) && id in w.queue.jobs && FlowsFor(w, w.queue.jobs[id].key)
    requires IsLive(w.queue.jobs[id]) && JobFits(w.runs, w.queue.jobs[id])
    ensures FlowsFor(Admit(w, w.queue.jobs[id], c, onSubscription, false), w.queue.jobs[id].key)
  {
    hide WorldInv, FlowsFor, BirthBudget, NewRun;
    var job := w.queue.jobs[id];
    if job.key !in w.runs && job.kind.IssueOpened? {
      var r := Admit(w, job, c, onSubscription, false);
      var budget := BirthBudget(c, onSubscription);
      BudgetIsSet(w, job.key, budget);
      BornFlow(w, id, r, budget);
    }
  }

  // ---- Dispatching ----

  // The run of the claimed job was replaced, at most one job was added, and the claimed job let go.
  ghost predicate Replaced(w: World, z: World, id: nat, key: RunKey, enq: Option<NewJob>) {
    && key in z.runs && z.runs == w.runs[key := z.runs[key]]
    && (forall other | other in w.queue.jobs && other != id ::
          other in z.queue.jobs && z.queue.jobs[other] == w.queue.jobs[other])
    && id in w.queue.jobs && id in z.queue.jobs
    && z.queue.jobs[id].key == w.queue.jobs[id].key && z.queue.jobs[id].kind == w.queue.jobs[id].kind
    && (forall other | other in z.queue.jobs && other !in w.queue.jobs :: other == w.queue.next && enq.Some?)
    && (enq.Some? ==>
          && w.queue.next in z.queue.jobs && w.queue.next !in w.queue.jobs
          && z.queue.jobs[w.queue.next] == Job(key, enq.value.kind, enq.value.body, Queued, 0, w.now, None))
    && z.queue.claims == w.queue.claims
    && z.now == w.now
  }

  // How the claimed job ends, and with what run.
  predicate LetGo(z: World, id: nat, key: RunKey, st: St)
    requires id in z.queue.jobs && key in z.runs
  {
    var job := z.queue.jobs[id];
    var run := z.runs[key];
    var closed := run == st.run.(state := Failed, updatedAt := run.updatedAt);
    match st.status
    case Threw(e) =>
      if IsRefusal(e) then job.status.Finished? && closed
      else (job.status.Queued? && run == st.run) || (job.status.Dead? && closed)
    case _ => job.status.Finished? && run == st.run
  }

  lemma PutShape(w: World, id: nat, key: RunKey, st: St)
    requires WorldInv(w) && id in w.queue.jobs
    ensures var z := Put(w, key, st);
      Replaced(w, z, id, key, st.enq) && z.runs[key] == st.run && z.queue.jobs[id] == w.queue.jobs[id]
  {
    hide RunInv, JobFits, JobCounted, JobTimed, ClaimsApart;
  }

  // Only the claimed job and its run changed.
  ghost predicate Touched(p: World, z: World, id: nat, key: RunKey) {
    && key in z.runs && z.runs == p.runs[key := z.runs[key]]
    && id in p.queue.jobs && id in z.queue.jobs && z.queue.jobs == p.queue.jobs[id := z.queue.jobs[id]]
    && z.queue.jobs[id].key == p.queue.jobs[id].key && z.queue.jobs[id].kind == p.queue.jobs[id].kind
    && z.queue.claims == p.queue.claims
    && z.now == p.now
  }

  lemma ReplacedOnward(w: World, p: World, z: World, id: nat, key: RunKey, enq: Option<NewJob>)
    requires Replaced(w, p, id, key, enq) && Touched(p, z, id, key)
    ensures Replaced(w, z, id, key, enq)
  {
  }

  lemma SettleTouches(p: World, id: nat, key: RunKey, st: St)
    requires id in p.queue.jobs && key in p.runs && p.runs[key] == st.run && st.status != Threw(Died)
    ensures var z := Settle(p, id, key, st.status, Calm);
      Touched(p, z, id, key) && LetGo(z, id, key, st)
  {
    hide ComputeBackoffMs;
    assert p.runs[key := p.runs[key]] == p.runs;
  }

  // What an execution and its settling leave when the worker survives both.
  function SettledCalmly(w: World, id: nat, key: RunKey, st: St): World {
    var p := Put(w, key, st);
    if id in p.queue.jobs then Settle(p, id, key, st.status, Calm) else p
  }

  lemma SettleShape(w: World, id: nat, key: RunKey, st: St)
    requires WorldInv(w) && id in w.queue.jobs && st.status != Threw(Died)
    ensures var z := SettledCalmly(w, id, key, st);
      Replaced(w, z, id, key, st.enq) && LetGo(z, id, key, st)
  {
    hide WorldInv, Put, Settle;
    PutShape(w, id, key, st);
    var p := Put(w, key, st);
    SettleTouches(p, id, key, st);
    ReplacedOnward(w, p, Settle(p, id, key, st.status, Calm), id, key, st.enq);
  }

  // A job of another run, or another job of this run, still serves what it served.
  lemma StillAwaited(w: World, z: World, id: nat, key: RunKey, enq: Option<NewJob>, k: RunKey, kind: JobKind)
    requires Replaced(w, z, id, key, enq) && Awaited(w.queue, k, kind)
    requires k != key || kind != w.queue.jobs[id].kind || IsLive(z.queue.jobs[id])
    requires w.queue.jobs[id].key == key
    ensures Awaited(z.queue, k, kind)
  {
    var j :| j in w.queue.jobs && Serves(w.queue.jobs[j], k, kind);
    assert Serves(z.queue.jobs[j], k, kind);
  }

  // What the flow needs of the execution of the claimed job.
  predicate Flows(kind: JobKind, before: Run, st: St) {
    && st.status !in {Threw(Budget), Threw(NoRecipe)}
    && StaysUnharmed(before, st.run)
    && (st.enq.Some? ==> MayFollow(kind, before, st.enq.value.kind, st.run))
    && (kind.IssueOpened? && st.enq.Some? ==> Live(st))
    && (Drafting(before) && kind.ProduceSpec? && st.status == Threw(Other) ==> Drafting(st.run))
    && (Drafting(before) && !kind.ProduceSpec? ==> Drafting(st.run))
  }

  lemma ServedAfter(w: World, z: World, id: nat, key: RunKey, before: St, st: St)
    requires FlowsFor(w, key) && Replaced(w, z, id, key, st.enq) && LetGo(z, id, key, st)
    requires key in w.runs && w.queue.jobs[id].key == key && before.run == w.runs[key]
    requires Served(w.queue.jobs[id].kind, before, st)
    requires st.status !in {Threw(Budget), Threw(NoRecipe), Threw(Died)}
    ensures IsServed(z.queue, key, z.runs[key])
  {
    var kind := w.queue.jobs[id].kind;
    hide Drafting, MayFollow, Needs, Watch, Awaited, Unharmed, DraftedOnce;
    if z.runs[key].state.Failed? {
      FailedNeedsNothing(z.runs[key]);
    } else {
      var need := Needs(st.run);
      assert z.runs[key] == st.run;
      assert IsServed(w.queue, key, before.run);
      if need.Wait? && st.enq.Some? && st.enq.value.kind == need.kind {
        assert Serves(z.queue.jobs[w.queue.next], key, need.kind);
        AwaitedBy(z.queue, w.queue.next, key, need.kind);
      } else if need == Wait(kind) {
        AwaitedBy(z.queue, id, key, kind);
      } else if need.Wait? {
        StillAwaited(w, z, id, key, st.enq, key, need.kind);
      }
    }
  }

  lemma AwaitedBy(q: Queue, id: nat, key: RunKey, kind: JobKind)
    requires id in q.jobs && Serves(q.jobs[id], key, kind)
    ensures Awaited(q, key, kind)
  {
  }

  lemma FailedNeedsNothing(r: Run)
    requires r.state.Failed?
    ensures Needs(r).Nothing?
  {
  }

  lemma MayFollowDrafting(kind: JobKind, before: Run, st: St)
    requires Flows(kind, before, st) && st.enq.Some? && st.enq.value.kind.ProduceSpec?
    ensures before.state.Received? && Drafting(st.run) && Live(st)
  {
  }

  lemma DraftedAfter(w: World, z: World, id: nat, key: RunKey, st: St)
    requires FlowsFor(w, key) && Replaced(w, z, id, key, st.enq) && LetGo(z, id, key, st)
    requires key in w.runs && w.queue.jobs[id].key == key && IsLive(w.queue.jobs[id]) && st.status != Threw(Died)
    requires Flows(w.queue.jobs[id].kind, w.runs[key], st)
    requires Drafting(w.runs[key]) && !w.queue.jobs[id].kind.ProduceSpec? && st.status.Threw? ==> st.run.hasSpec
    ensures Drafted(z, key)
  {
    if st.enq.Some? && st.enq.value.kind.ProduceSpec? { MayFollowDrafting(w.queue.jobs[id].kind, w.runs[key], st); }
    hide MayFollow, IsServed, Unharmed;
    var jobs := z.queue.jobs;
    forall i | i in jobs && Drafts(jobs[i], key)
      ensures key in z.runs && Drafting(z.runs[key])
    {
      if i in w.queue.jobs && i != id {
        assert Drafts(w.queue.jobs[i], key);
        assert IsLive(w.queue.jobs[id]);
      }
    }
  }

  lemma DraftedOnceAfter(w: World, z: World, id: nat, key: RunKey, st: St)
    requires FlowsFor(w, key) && Replaced(w, z, id, key, st.enq)
    requires key in w.runs && w.queue.jobs[id].key == key && IsLive(w.queue.jobs[id])
    requires w.runs[key].state.Received? ==> !w.runs[key].hasSpec
    requires Flows(w.queue.jobs[id].kind, w.runs[key], st)
    ensures DraftedOnce(z.queue, key)
  {
    if st.enq.Some? && st.enq.value.kind.ProduceSpec? { MayFollowDrafting(w.queue.jobs[id].kind, w.runs[key], st); }
    hide MayFollow, IsServed, Unharmed;
    var q := z.queue;
    forall i, j | i in q.jobs && j in q.jobs && Drafts(q.jobs[i], key) && Drafts(q.jobs[j], key)
      ensures i == j
    {
      assert i in w.queue.jobs ==> Drafts(w.queue.jobs[i], key);
      assert j in w.queue.jobs ==> Drafts(w.queue.jobs[j], key);
    }
  }

  lemma RunOk(w: World, key: RunKey)
    requires WorldInv(w) && key in w.runs
    ensures RunInv(w.runs[key], w.nextTask, 0)
  {
    hide RunInv, QueueInv, JobFits;
  }

  lemma FitOf(w: World, id: nat)
    requires WorldInv(w) && id in w.queue.jobs
    ensures JobFits(w.runs, w.queue.jobs[id])
  {
    hide QueueInv, RunInv, JobFits;
  }

  lemma JobIdBelow(w: World, id: nat)
    requires WorldInv(w) && id in w.queue.jobs
    ensures id < w.queue.next
  {
    hide RunInv, JobFits, JobCounted, JobTimed, ClaimsApart;
  }

  lemma LiveJobReady(w: World, id: nat)
    requires WorldInv(w) && id in w.queue.jobs && w.queue.jobs[id].key in w.runs
    requires IsLive(w.queue.jobs[id])
    ensures Ready(w.queue.jobs[id].kind, w.runs[w.queue.jobs[id].key])
  {
    hide WorldInv;
    FitOf(w, id);
  }

  lemma LeavesFacts(kind: JobKind, st: St, r: St)
    requires Leaves(kind, st, r)
    ensures r.status !in {Threw(Budget), Threw(NoRecipe)} && SameDeaths(st.run, r.run)
    ensures r.enq.Some? ==> MayFollow(kind, st.run, r.enq.value.kind, r.run)
    ensures st.run.hasSpec ==> r.run.hasSpec
  {
    hide MayFollow, Ready, DoneCount, Watch;
  }

  lemma ServedRecords(kind: JobKind, st: St, r: St)
    requires Served(kind, st, r)
    ensures PlanIsWhole(st.run) ==> PlanIsWhole(r.run)
  {
    hide PlanIsWhole, Needs;
  }

  // Only the drafting job acts on a run that waits for its first spec.
  lemma NotActing(kind: JobKind, r: Run)
    requires Drafting(r) && !r.hasSpec && !kind.ProduceSpec? && Ready(kind, r)
    ensures !Acts(kind, r)
  {
  }

  lemma FlowsFrom(w: World, id: nat, a: Answers, f: Faults)
    requires WorldInv(w) && id in w.queue.jobs && IsLive(w.queue.jobs[id]) && w.queue.jobs[id].key in w.runs
    requires FlowsFor(w, w.queue.jobs[id].key)
    requires Executed(w, id, a, f).status != Threw(Died)
    ensures var job := w.queue.jobs[id];
      var st := Executed(w, id, a, f);
      && Served(job.kind, Open(w, job.key), st)
      && Flows(job.kind, w.runs[job.key], st)
      && (Drafting(w.runs[job.key]) && !job.kind.ProduceSpec? && st.status.Threw? ==> st.run.hasSpec)
  {
    hide WorldInv, RunInv, Handle, IsServed, Drafted, DraftedOnce, Unharmed, Served, Leaves, MayFollow, Acts, Ready, Relays;
    hide SameDeaths, PlanIsWhole;
    var job := w.queue.jobs[id];
    var run := w.runs[job.key];
    LiveJobReady(w, id);
    RunOk(w, job.key);
    HandleProgress(job.kind, job.body, Open(w, job.key), a, f);
    var st := Executed(w, id, a, f);
    LeavesFacts(job.kind, Open(w, job.key), st);
    ServedRecords(job.kind, Open(w, job.key), st);
    if !run.hasSpec && Drafting(run) && !job.kind.ProduceSpec? {
      NotActing(job.kind, run);
      IdleIsNoOp(job.kind, job.body, Open(w, job.key), a, f);
    }
  }

  // The execution of a claimed job, as the worker dispatches it.
  function Executed(w: World, id: nat, a: Answers, f: Faults): St
    requires id in w.queue.jobs && w.queue.jobs[id].key in w.runs
  {
    var job := w.queue.jobs[id];
    Handle(job.kind, job.body, Open(w, job.key), a, f)
  }

  lemma UnharmedAfter(w: World, z: World, id: nat, key: RunKey, st: St)
    requires key in w.runs && Unharmed(w.runs[key]) && Replaced(w, z, id, key, st.enq) && LetGo(z, id, key, st)
    requires StaysUnharmed(w.runs[key], st.run)
    ensures Unharmed(z.runs[key])
  {
    hide Watch;
  }

  lemma DispatchFlow(w: World, id: nat, a: Answers, f: Faults)
    requires WorldInv(w) && id in w.queue.jobs && IsLive(w.queue.jobs[id]) && w.queue.jobs[id].key in w.runs
    requires FlowsFor(w, w.queue.jobs[id].key)
    requires Executed(w, id, a, f).status != Threw(Died)
    requires Dispatch(w, id, a, f) == SettledCalmly(w, id, w.queue.jobs[id].key, Executed(w, id, a, f))
    ensures FlowsFor(Dispatch(w, id, a, f), w.queue.jobs[id].key)
  {
    hide WorldInv, Executed, Dispatch, Put, Settle, MayFollow, Needs, Drafting, Replaced, LetGo;
    hide IsServed, Drafted, DraftedOnce, Unharmed;
    var job := w.queue.jobs[id];
    var st := Executed(w, id, a, f);
    var z := Dispatch(w, id, a, f);
    FlowsFrom(w, id, a, f);
    SettleShape(w, id, job.key, st);
    if w.runs[job.key].state.Received? { NewHasNoSpec(w, job.key); }
    SameKey(w, z, id, job.key, st.enq);
    UnharmedAfter(w, z, id, job.key, st);
    ServedAfter(w, z, id, job.key, Open(w, job.key), st);
    DraftedAfter(w, z, id, job.key, st);
    DraftedOnceAfter(w, z, id, job.key, st);
  }

  lemma SameKey(w: World, z: World, id: nat, key: RunKey, enq: Option<NewJob>)
    requires Replaced(w, z, id, key, enq)
    ensures key in z.runs && id in w.queue.jobs && id in z.queue.jobs
  {
  }

  lemma NewHasNoSpec(w: World, key: RunKey)
    requires WorldInv(w) && key in w.runs && w.runs[key].state.Received?
    ensures !w.runs[key].hasSpec
  {
    RunOk(w, key);
  }

  // ---- Deaths ----

  lemma DieDeaths(w: World, key: RunKey)
    requires key in w.runs
    ensures key in Die(w, key).runs && Deaths(Die(w, key).runs[key]) == Deaths(w.runs[key]) + 1
  {
    hide Watch;
  }

  lemma CloseDeaths(w: World, key: RunKey)
    requires key in w.runs
    ensures key in CloseRun(w, key).runs && Deaths(CloseRun(w, key).runs[key]) == Deaths(w.runs[key])
  {
    hide Watch;
  }

  // Settling a job either does what it would do if no call were cut, or records a death of the worker.
  lemma SettleOrDies(w: World, id: nat, key: RunKey, status: Status, f: Faults)
    requires id in w.queue.jobs && key in w.runs
    ensures var z := Settle(w, id, key, status, f);
      && key in z.runs && Deaths(z.runs[key]) >= Deaths(w.runs[key])
      && (Deaths(z.runs[key]) > 0 || (status != Threw(Died) && z == Settle(w, id, key, status, Calm)))
      && (NoDeath(f) && status != Threw(Died) ==> z == Settle(w, id, key, status, Calm))
  {
    hide FailOrRetryJob, MarkJobDone, Die, CloseRun, Deaths;
    assert Calm(At(91)).None? && Calm(At(92)).None? && Calm(At(93)).None?;
    DieDeaths(w, key);
    CloseDeaths(w, key);
    DieDeaths(CloseRun(w, key), key);
    var retried := w.(queue := FailOrRetryJob(w.queue, id, w.now));
    CloseDeaths(retried, key);
    DieDeaths(retried, key);
  }

  lemma ExecutedDeaths(w: World, id: nat, a: Answers, f: Faults)
    requires WorldInv(w) && id in w.queue.jobs && IsLive(w.queue.jobs[id]) && w.queue.jobs[id].key in w.runs
    ensures SameDeaths(w.runs[w.queue.jobs[id].key], Executed(w, id, a, f).run)
    ensures NoDeath(f) && Breathing(a) ==> Executed(w, id, a, f).status != Threw(Died)
  {
    hide WorldInv, RunInv, Handle, Served, Leaves, Ready, Voiced, Relays, SameDeaths, Watch;
    var job := w.queue.jobs[id];
    FitsItsRun(w, id);
    HandleProgress(job.kind, job.body, Open(w, job.key), a, f);
    LeavesFacts(job.kind, Open(w, job.key), Executed(w, id, a, f));
  }

  lemma DispatchOrDies(w: World, id: nat, a: Answers, f: Faults)
    requires WorldInv(w) && id in w.queue.jobs && IsLive(w.queue.jobs[id]) && w.queue.jobs[id].key in w.runs
    ensures var key := w.queue.jobs[id].key;
      var z := Dispatch(w, id, a, f);
      var st := Executed(w, id, a, f);
      && key in z.runs && Deaths(z.runs[key]) >= Deaths(w.runs[key])
      && (Hurt(z, key) || (st.status != Threw(Died) && z == SettledCalmly(w, id, key, st)))
      && (NoDeath(f) && Breathing(a) ==> st.status != Threw(Died) && z == SettledCalmly(w, id, key, st))
  {
    hide WorldInv, Handle, Settle, Watch;
    var key := w.queue.jobs[id].key;
    var st := Executed(w, id, a, f);
    ExecutedDeaths(w, id, a, f);
    PutKeepsJob(w, key, st, id);
    SettleOrDies(Put(w, key, st), id, key, st.status, f);
  }

  lemma AdmitDeaths(w: World, job: Job, c: Config, onSubscription: bool, dies: bool)
    ensures var r := Admit(w, job, c, onSubscription, dies);
      && (job.key in w.runs ==> job.key in r.runs && Deaths(r.runs[job.key]) == Deaths(w.runs[job.key]))
      && (job.key in r.runs ==> Hurt(Die(r, job.key), job.key))
      && (job.key in r.runs ==> Deaths(Die(r, job.key).runs[job.key]) >= Deaths(r.runs[job.key]))
  {
    hide BirthBudget, NewRun, Watch;
  }

  // ---- One step of the worker ----

  lemma ProcessJobFlow(w: World, id: nat, c: Config, onSubscription: bool, a: Answers, f: Faults)
    requires WorldInv(w) && id in w.queue.jobs && Claimable(w.queue.jobs[id], w.now)
    ensures var key := w.queue.jobs[id].key;
      var z := ProcessJob(w, id, c, onSubscription, a, f);
      && (Flowing(w, key) ==> Flowing(z, key))
      && (FlowsFor(w, key) && NoDeath(f) && Breathing(a) ==> FlowsFor(z, key))
  {
    hide WorldInv, FlowsFor, ProcessClaimed, JobFits, Hurt, Die;
    var job := w.queue.jobs[id];
    var claimed := w.(queue := ClaimJob(w.queue, id, w.now));
    FitOf(w, id);
    JobHasRun(w, job);
    ClaimSafe(w, id);
    HurtIs(w, job.key);
    HurtIs(claimed, job.key);
    if FlowsFor(w, job.key) { ClaimFlow(w, id); }
    if f(At(89)) == Some(Died) {
      DieFlow(claimed, job.key);
    } else {
      ProcessClaimedFlow(claimed, id, job, c, onSubscription, a, f);
    }
  }

  // A run that exists is hurt; to one that does not, nothing happened.
  lemma DieFlow(w: World, key: RunKey)
    ensures Hurt(w, key) ==> Hurt(Die(w, key), key)
    ensures FlowsFor(w, key) ==> Flowing(Die(w, key), key)
  {
    hide Needs, Drafting, Awaited, Unharmed, DraftedOnce, Watch;
  }

  lemma ProcessClaimedFlow(w: World, id: nat, job: Job, c: Config, onSubscription: bool, a: Answers, f: Faults)
    requires WorldInv(w) && id in w.queue.jobs && IsLive(w.queue.jobs[id])
    requires job.key == w.queue.jobs[id].key && job.kind == w.queue.jobs[id].kind
    requires job.kind.IssueOpened? || job.key in w.runs
    ensures var z := ProcessClaimed(w, id, job, c, onSubscription, a, f);
      && (Flowing(w, job.key) ==> Flowing(z, job.key))
      && (FlowsFor(w, job.key) && NoDeath(f) && Breathing(a) ==> FlowsFor(z, job.key))
  {
    hide WorldInv, FlowsFor, Dispatch, JobFits, Deaths, Hurt, Admit, Die;
    var dies := f(At(90)) == Some(Died);
    var admitted := Admit(w, job, c, onSubscription, dies);
    FitOf(w, id);
    AdmitSafe(w, job, c, onSubscription, dies);
    AdmitDeaths(w, job, c, onSubscription, dies);
    AdmitSameJob(w, id, job, c, onSubscription, dies);
    AdmitHasRun(w, job, c, onSubscription, dies);
    HurtIs(w, job.key);
    HurtIs(ProcessClaimed(w, id, job, c, onSubscription, a, f), job.key);
    if !dies {
      if FlowsFor(w, job.key) { AdmitFlow(w, id, c, onSubscription); }
      DispatchOrDies(admitted, id, a, f);
      if FlowsFor(w, job.key) && Executed(admitted, id, a, f).status != Threw(Died)
         && Dispatch(admitted, id, a, f) == SettledCalmly(admitted, id, job.key, Executed(admitted, id, a, f)) {
        DispatchFlow(admitted, id, a, f);
      }
    }
  }

  lemma HurtIs(w: World, key: RunKey)
    ensures Hurt(w, key) <==> key in w.runs && Deaths(w.runs[key]) > 0
  {
  }

  lemma AdmitHasRun(w: World, job: Job, c: Config, onSubscription: bool, dies: bool)
    requires job.kind.IssueOpened? || job.key in w.runs
    ensures job.key in Admit(w, job, c, onSubscription, dies).runs
  {
  }

  // Admission looks at the job's kind and key only, which claiming leaves alone.
  lemma AdmitSameJob(w: World, id: nat, job: Job, c: Config, onSubscription: bool, dies: bool)
    requires id in w.queue.jobs && w.queue.jobs[id].key == job.key && w.queue.jobs[id].kind == job.kind
    ensures Admit(w, w.queue.jobs[id], c, onSubscription, dies) == Admit(w, job, c, onSubscription, dies)
    ensures Admit(w, job, c, onSubscription, dies).queue == w.queue
  {
  }

  lemma JobHasRun(w: World, job: Job)
    requires JobFits(w.runs, job) && Claimable(job, w.now)
    ensures IsLive(job) && (!job.kind.IssueOpened? ==> job.key in w.runs)
  {
  }

  // What flows elsewhere is not disturbed.
  lemma ElsewhereFlows(w: World, z: World, other: RunKey, key: RunKey)
    requires Local(w, z, other) && key != other
    ensures FlowsFor(w, key) ==> FlowsFor(z, key)
    ensures Hurt(w, key) ==> Hurt(z, key)
  {
    hide Needs, Drafting, Unharmed;
    if FlowsFor(w, key) && key in w.runs && Needs(w.runs[key]).Wait? {
      var kind := Needs(w.runs[key]).kind;
      var j :| j in w.queue.jobs && Serves(w.queue.jobs[j], key, kind);
      assert Serves(z.queue.jobs[j], key, kind);
    }
  }

  // ---- Webhooks, sweeps and time ----

  lemma AddJobFlow(w: World, key: RunKey, kind: JobKind, body: string, k: RunKey)
    requires WorldInv(w) && FlowsFor(w, k) && !kind.ProduceSpec?
    ensures FlowsFor(AddJob(w, key, kind, body), k)
  {
    hide RunInv, JobFits, JobCounted, JobTimed, ClaimsApart, Needs, Drafting, Unharmed;
    var r := AddJob(w, key, kind, body);
    if k in w.runs && Needs(w.runs[k]).Wait? {
      var kind := Needs(w.runs[k]).kind;
      var j :| j in w.queue.jobs && Serves(w.queue.jobs[j], k, kind);
      assert Serves(r.queue.jobs[j], k, kind);
    }
  }

  // The run needs and drafts what it did before, or nothing.
  predicate FlowsOn(before: Run, after: Run) {
    && (Needs(after).Nothing? || Needs(after) == Needs(before))
    && (Drafting(before) ==> Drafting(after))
    && StaysUnharmed(before, after)
  }

  // A run that needs and drafts what it did before.
  lemma RunFlow(w: World, z: World, k: RunKey)
    requires FlowsFor(w, k) && z.queue == w.queue && (k in z.runs <==> k in w.runs)
    requires k in w.runs ==> FlowsOn(w.runs[k], z.runs[k])
    ensures FlowsFor(z, k)
  {
    hide Needs, Drafting, Awaited, Watch;
  }

  lemma ReplyFlow(w: World, key: RunKey, kind: JobKind, body: string, k: RunKey)
    requires WorldInv(w) && FlowsFor(w, k) && key in w.runs && !kind.ProduceSpec?
    ensures FlowsFor(Reply(w, key, kind, body), k)
  {
    hide WorldInv, FlowsFor, RunInv, CountersKept, WorldKept, WorldInvBut;
    var run := w.runs[key];
    var told := w.(runs := w.runs[key := Hear(run, body)]);
    RunFlow(w, told, k);
    NoDebt(w, key);
    RunOk(w, key);
    HeardMore(run, body, w.nextTask);
    ReplaceSafe(w, key, Hear(run, body), 0);
    AddJobFlow(told, key, kind, body, k);
  }

  lemma MarkedFlow(w: World, processed: set<string>, k: RunKey)
    requires WorldInv(w)
    ensures var r := w.(processed := processed);
      WorldInv(r) && (FlowsFor(w, k) ==> FlowsFor(r, k))
  {
    hide RunInv, QueueInv, JobFits, Needs, Drafting, Awaited;
  }

  lemma DeliverFlow(w: World, d: Delivery, k: RunKey)
    requires WorldInv(w) && FlowsFor(w, k)
    ensures FlowsFor(Deliver(w, d), k)
  {
    hide WorldInv, FlowsFor, Reply, AddJob;
    var marked := w.(processed := w.processed + {d.id});
    MarkedFlow(w, marked.processed, k);
    if Accepted(d) && d.id !in w.processed {
      match d
      case Opened(_, installation, owner, repo, issue) =>
        AddJobFlow(marked, RunKey(installation.value, owner, repo, issue), IssueOpened, "", k);
      case IssueCommented(_, installation, owner, repo, issue, _, body) =>
        var key := RunKey(installation.value, owner, repo, issue);
        if key in w.runs && GateJob(w.runs[key].state).Some? {
          ReplyFlow(marked, key, GateJob(w.runs[key].state).value, body.GetOr(""), k);
        }
      case ReviewCommented(_, installation, owner, repo, branch, _, body) =>
        var key := BranchKey(installation.value, owner, repo, Branch.IssueNumberFromBranch(branch).value);
        if key.Some? && key.value in w.runs && w.runs[key.value].state.AwaitingPrReview? {
          ReplyFlow(marked, key.value, Fix, body.GetOr(""), k);
        }
      case ReviewSubmitted(_, installation, owner, repo, branch, _, body, _) =>
        var key := BranchKey(installation.value, owner, repo, Branch.IssueNumberFromBranch(branch).value);
        if key.Some? && key.value in w.runs && w.runs[key.value].state.AwaitingPrReview? {
          ReplyFlow(marked, key.value, Fix, body.GetOr(""), k);
        }
      case Uninstalled(_) =>
    }
  }

  lemma DeliverDeaths(w: World, d: Delivery, k: RunKey)
    ensures Hurt(w, k) ==> Hurt(Deliver(w, d), k)
  {
    hide Watch;
  }

  lemma SweepEvents(r: Run)
    ensures StaysUnharmed(r, Note(r, Reminded)) && StaysUnharmed(r, Note(r, SweepDied))
    ensures forall now :: StaysUnharmed(r, Ping(r, now))
  {
    hide Watch, Note;
  }

  lemma SweptRunStays(r: Run, now: int, post: PostOutcome)
    ensures StaysUnharmed(r, SweptRun(r, now, post))
  {
    hide StaysUnharmed, Note, Ping;
    SweepEvents(r);
    SweepEvents(Note(r, Reminded));
    StaysTransitive(r, Note(r, Reminded), Ping(Note(r, Reminded), now));
    StaysTransitive(r, Note(r, Reminded), Note(Note(r, Reminded), SweepDied));
    AbandonStays(r, now);
  }

  lemma AbandonStays(r: Run, now: int)
    ensures StaysUnharmed(r, Abandon(r, now)) && StaysUnharmed(r, r)
  {
    hide Watch;
  }

  lemma StaysTransitive(a: Run, b: Run, c: Run)
    requires StaysUnharmed(a, b) && StaysUnharmed(b, c)
    ensures StaysUnharmed(a, c)
  {
    hide Watch;
  }

  lemma SweptRunFlow(r: Run, now: int, post: PostOutcome, next: nat)
    requires RunInv(r, next, 0)
    ensures FlowsOn(r, SweptRun(r, now, post))
  {
    SweptRunStays(r, now, post);
    if IsGate(r.state) { GateRunHasSpec(r, next); }
    hide RunInv, Watch, StaysUnharmed;
  }

  lemma SweepFlow(w: World, posts: RunKey -> PostOutcome, k: RunKey)
    requires WorldInv(w)
    ensures FlowsFor(w, k) ==> FlowsFor(Sweep(w, posts), k)
    ensures Hurt(w, k) ==> Hurt(Sweep(w, posts), k)
  {
    hide WorldInv, SweptRun, Outcome, FlowsFor, FlowsOn;
    var r := Sweep(w, posts);
    if k in w.runs {
      RunOk(w, k);
      SweptRunFlow(w.runs[k], w.now, Outcome(w, posts, k), w.nextTask);
      SweptRunStays(w.runs[k], w.now, Outcome(w, posts, k));
    }
    if FlowsFor(w, k) { RunFlow(w, r, k); }
  }

  // ---- Whole runs of the system ----

  lemma WorkedFlow(w: World, c: Config, onSubscription: bool, a: Answers, f: Faults, k: RunKey)
    requires WorldInv(w) && Flowing(w, k)
    ensures var z := ProcessNextJob(w, c, onSubscription, a, f);
      && Flowing(z, k)
      && (FlowsFor(w, k) && NoDeath(f) && Breathing(a) ==> FlowsFor(z, k))
  {
    hide WorldInv, ProcessJob, FlowsFor, Hurt;
    var id := NextClaimable(w.queue, 0, w.now);
    if id.Some? {
      if w.queue.jobs[id.value].key == k {
        ProcessJobFlow(w, id.value, c, onSubscription, a, f);
      } else {
        ProcessJobLocal(w, id.value, c, onSubscription, a, f);
        ElsewhereFlows(w, ProcessJob(w, id.value, c, onSubscription, a, f), w.queue.jobs[id.value].key, k);
      }
    }
  }

  lemma NextFlow(w: World, s: Step, c: Config, k: RunKey)
    requires WorldInv(w) && Flowing(w, k)
    ensures Flowing(Next(w, s, c), k)
    ensures FlowsFor(w, k) && Survives(s) ==> FlowsFor(Next(w, s, c), k)
  {
    hide WorldInv, ProcessNextJob, Deliver, Sweep, FlowsFor, Hurt;
    match s
    case Delivered(d) =>
      DeliverDeaths(w, d, k);
      if FlowsFor(w, k) { DeliverFlow(w, d, k); }
    case Worked(onSubscription, a, f) => WorkedFlow(w, c, onSubscription, a, f, k);
    case Swept(posts) => SweepFlow(w, posts, k);
    case Waited(ms) => ClockFlow(w, w.now + ms, k);
    case Crashed(d) => MarkOnly(w, d, k);
  }

  lemma ClockFlow(w: World, now: int, k: RunKey)
    ensures FlowsFor(w, k) ==> FlowsFor(w.(now := now), k)
    ensures Hurt(w, k) ==> Hurt(w.(now := now), k)
  {
    hide Needs, Drafting, Awaited, Unharmed;
  }

  lemma MarkOnly(w: World, d: Delivery, k: RunKey)
    requires WorldInv(w)
    ensures FlowsFor(w, k) ==> FlowsFor(Mark(w, d), k)
    ensures Hurt(w, k) ==> Hurt(Mark(w, d), k)
  {
    hide WorldInv, FlowsFor;
    MarkedFlow(w, Mark(w, d).processed, k);
  }

  // Whatever is delivered, thrown, swept or killed, a run keeps going until the worker dies over one of
  // its own jobs.
  lemma {:induction false} AlwaysFlows(w: World, steps: seq<Step>, c: Config, k: RunKey)
    requires WorldInv(w) && Flowing(w, k)
    ensures WorldInv(After(w, steps, c)) && Flowing(After(w, steps, c), k)
    ensures FlowsFor(w, k) && AllSurvive(steps) ==> FlowsFor(After(w, steps, c), k)
  {
    AlwaysSafe(w, steps, c);
    hide WorldInv, Flowing, FlowsFor, Next;
    if steps != [] {
      var earlier := steps[..|steps| - 1];
      AlwaysFlows(w, earlier, c, k);
      NextFlow(After(w, earlier, c), steps[|steps| - 1], c, k);
    }
  }

  lemma NextAllFlow(w: World, s: Step, c: Config)
    requires WorldInv(w) && FlowInv(w) && Survives(s)
    ensures FlowInv(Next(w, s, c))
  {
    hide WorldInv, FlowsFor, Next, Survives;
    forall key ensures FlowsFor(Next(w, s, c), key) {
      assert FlowsFor(w, key);
      NextFlow(w, s, c, key);
    }
  }

  lemma AllFlow(w: World, steps: seq<Step>, c: Config)
    requires WorldInv(w) && FlowInv(w) && AllSurvive(steps)
    ensures WorldInv(After(w, steps, c)) && FlowInv(After(w, steps, c))
  {
    hide WorldInv, FlowsFor, After;
    AlwaysSafe(w, steps, c);
    forall key ensures FlowsFor(After(w, steps, c), key) {
      assert FlowsFor(w, key);
      AlwaysFlows(w, steps, c, key);
    }
  }

  lemma InitialFlows(now: int)
    ensures WorldInv(Initial(now)) && FlowInv(Initial(now))
  {
    InitialInv(now);
  }

  // In every reachable state, a run over which the worker never died has all it needs to go on.
  lemma ReachableFlows(w: World, k: RunKey)
    requires Reachable(w) && !Hurt(w, k)
    ensures WorldInv(w) && FlowsFor(w, k)
  {
    hide WorldInv, FlowsFor, After, Hurt;
    var now, steps, c :| w == After(Initial(now), steps, c);
    InitialFlows(now);
    assert FlowsFor(Initial(now), k);
    AlwaysFlows(Initial(now), steps, c, k);
  }

  // While the worker lives, that is every run.
  lemma AliveFlows(w: World)
    requires ReachableAlive(w)
    ensures Reachable(w) && WorldInv(w) && FlowInv(w)
  {
    hide WorldInv, FlowInv, After;
    var now, steps, c :| AllSurvive(steps) && w == After(Initial(now), steps, c);
    InitialFlows(now);
    AllFlow(Initial(now), steps, c);
  }
}
