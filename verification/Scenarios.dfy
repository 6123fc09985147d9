// Runs of the system that show its weak spots: each is reached from the initial state by webhooks, by the
// worker, and by one throw or one death at a named await.
module Scenarios {
  import opened Wrappers
  import opened Text
  import opened Pipeline
  import opened Plan
  import opened RunInvariant
  import opened Steps
  import opened HandlerSpec
  import opened RunSafety
  import opened RunProgress
  import opened Retry
  import opened JobQueue
  import opened Orchestration
  import opened WorldSafety
  import opened Locality
  import opened WorldFlow
  import opened Liveness
  import opened Movement
  import opened HumanGate
  import opened Branch

  const PLAIN := Config(None, None)
  const KEY := RunKey(1, "owner", "repo", 1)
  const READY := Spec(0, 1, 1)
  const UNREADY := Spec(1, 1, 1)

  // Some schedule leads here; if `alive`, one in which the worker never died.
  ghost predicate Reached(w: World, alive: bool) {
    exists now, steps :: Leads(now, steps, w, alive)
  }

  ghost predicate Leads(now: int, steps: seq<Step>, w: World, alive: bool) {
    (alive ==> AllSurvive(steps)) && w == After(Initial(now), steps, PLAIN)
  }

  lemma Onward(w: World, s: Step, alive: bool)
    requires Reached(w, alive) && (alive ==> Survives(s))
    ensures Reached(Next(w, s, PLAIN), alive)
  {
    hide Next, Survives;
    var now, steps :| Leads(now, steps, w, alive);
    AfterBoth(Initial(now), steps, [s], PLAIN);
    AfterOne(w, s, PLAIN);
    assert Leads(now, steps + [s], Next(w, s, PLAIN), alive);
  }

  lemma ReachedIsReachable(w: World, alive: bool)
    requires Reached(w, alive)
    ensures Reachable(w) && WorldInv(w)
    ensures alive ==> ReachableAlive(w)
  {
    hide After, AllSurvive, WorldInv;
    var now, steps :| Leads(now, steps, w, alive);
    ReachableInv(w);
  }

  // ---- One job at a time ----

  // Job `id` is the one that is left to do, and its attempts are not used up.
  ghost predicate Remains(w: World, id: nat, kind: JobKind, body: string) {
    && id in w.queue.jobs
    && w.queue.jobs[id].key == KEY && w.queue.jobs[id].kind == kind && w.queue.jobs[id].body == body
    && IsLive(w.queue.jobs[id]) && w.queue.jobs[id].attempts + 1 < MAX_JOB_ATTEMPTS
    && NoneLiveBut(w, Some(id))
  }

  ghost predicate NoneLiveBut(w: World, id: Option<nat>) {
    forall other | other in w.queue.jobs && id != Some(other) :: !IsLive(w.queue.jobs[other])
  }

  ghost predicate Scene(w: World, id: nat, kind: JobKind, body: string) {
    Remains(w, id, kind, body) && Claimable(w.queue.jobs[id], w.now)
  }

  // It is its first attempt.
  ghost predicate First(w: World, id: nat, kind: JobKind, body: string) {
    Scene(w, id, kind, body) && w.queue.jobs[id].attempts == 0
  }

  // The worker has claimed job `id` and admitted its run.
  ghost predicate Claimed(w: World, id: nat, kind: JobKind, body: string) {
    && WorldInv(w) && KEY in w.runs && id in w.queue.jobs
    && w.queue.jobs[id].key == KEY && w.queue.jobs[id].kind == kind && w.queue.jobs[id].body == body
    && w.queue.jobs[id].status.InProgress? && w.queue.jobs[id].attempts < MAX_JOB_ATTEMPTS
    && NoneLiveBut(w, Some(id))
  }

  lemma OnlyScene(w: World, id: nat, kind: JobKind, body: string)
    requires WorldInv(w) && Scene(w, id, kind, body)
    ensures NextClaimable(w.queue, 0, w.now) == Some(id)
  {
    JobIdBelow(w, id);
    hide WorldInv;
  }

  lemma Begins(w: World, id: nat, kind: JobKind, body: string, a: Answers, f: Faults)
    requires WorldInv(w) && Scene(w, id, kind, body) && KEY in w.runs && Some(Died) !in {f(At(89)), f(At(90))}
    ensures var claimed := w.(queue := ClaimJob(w.queue, id, w.now));
      && Claimed(claimed, id, kind, body)
      && Next(w, Worked(false, a, f), PLAIN) == Dispatch(claimed, id, a, f)
      && Open(claimed, KEY) == Open(w, KEY)
  {
    hide WorldInv, Dispatch, NextClaimable;
    OnlyScene(w, id, kind, body);
    ClaimSafe(w, id);
    var claimed := w.(queue := ClaimJob(w.queue, id, w.now));
    ExistingAdmitted(claimed, w.queue.jobs[id], PLAIN, false, false);
  }

  // What the step leaves when the execution ended well.
  ghost predicate Moved(z: World, next: nat, now: int, st: St) {
    && z.now == now && KEY in z.runs && z.runs[KEY] == st.run
    && if st.enq.Some? then First(z, next, st.enq.value.kind, st.enq.value.body) else NoneLiveBut(z, None)
  }

  lemma Finishes(w: World, id: nat, kind: JobKind, body: string, a: Answers, f: Faults)
    requires Claimed(w, id, kind, body) && NoDeath(f)
    requires Handle(kind, body, Open(w, KEY), a, f).status.Running?
    ensures Moved(Dispatch(w, id, a, f), w.queue.next, w.now, Handle(kind, body, Open(w, KEY), a, f))
  {
    hide WorldInv, Handle, Settle, Put;
    var st := Handle(kind, body, Open(w, KEY), a, f);
    PutKeepsJob(w, KEY, st, id);
    PutsRun(w, KEY, st);
    SettleOrDies(Put(w, KEY, st), id, KEY, st.status, f);
    SettleShape(w, id, KEY, st);
  }

  // The job is to be retried.
  lemma Fails(w: World, id: nat, kind: JobKind, body: string, a: Answers, f: Faults)
    requires Claimed(w, id, kind, body) && NoDeath(f)
    requires var st := Handle(kind, body, Open(w, KEY), a, f);
      st.status == Threw(Other) && st.enq.None?
    ensures var z := Dispatch(w, id, a, f);
      KEY in z.runs && z.runs[KEY] == Handle(kind, body, Open(w, KEY), a, f).run
      && id in z.queue.jobs && z.queue.jobs[id].attempts == w.queue.jobs[id].attempts
      && (z.queue.jobs[id].attempts + 1 < MAX_JOB_ATTEMPTS ==> Remains(z, id, kind, body))
  {
    hide WorldInv, Handle, Note, ComputeBackoffMs;
  }

  // The worker died: the job stays leased.
  lemma Perishes(w: World, id: nat, kind: JobKind, body: string, a: Answers, f: Faults)
    requires Claimed(w, id, kind, body)
    requires var st := Handle(kind, body, Open(w, KEY), a, f);
      (st.status == Threw(Died) || f(At(91)) == Some(Died)) && st.enq.None?
    ensures var z := Dispatch(w, id, a, f);
      && KEY in z.runs && z.runs[KEY] == Note(Handle(kind, body, Open(w, KEY), a, f).run, WorkerDied)
      && z.queue == w.queue && z.now == w.now
  {
    hide WorldInv, Handle, Note;
  }

  // ---- The steps of a scenario ----

  // A webhook or a job was handled well.
  lemma Plays(w: World, id: nat, kind: JobKind, body: string, a: Answers, alive: bool) returns (z: World)
    requires Reached(w, alive) && Scene(w, id, kind, body) && KEY in w.runs && Breathing(a)
    requires Handle(kind, body, Open(w, KEY), a, Calm).status.Running?
    ensures Reached(z, alive)
    ensures Moved(z, w.queue.next, w.now, Handle(kind, body, Open(w, KEY), a, Calm))
  {
    hide WorldInv, Handle, Reached, Claimable, NoneLiveBut, Claimed, Dispatch, Next;
    ReachedIsReachable(w, alive);
    Begins(w, id, kind, body, a, Calm);
    Finishes(w.(queue := ClaimJob(w.queue, id, w.now)), id, kind, body, a, Calm);
    z := Next(w, Worked(false, a, Calm), PLAIN);
    Onward(w, Worked(false, a, Calm), alive);
  }

  // One call of the handler throws, and its job is to be retried.
  lemma Breaks(w: World, id: nat, kind: JobKind, body: string, a: Answers, at: Site) returns (z: World)
    requires Reached(w, true) && First(w, id, kind, body) && KEY in w.runs && Breathing(a)
    requires var st := Handle(kind, body, Open(w, KEY), a, ThrowsAt(at));
      st.status == Threw(Other) && st.enq.None?
    ensures Reached(z, true) && Remains(z, id, kind, body)
    ensures KEY in z.runs && z.runs[KEY] == Handle(kind, body, Open(w, KEY), a, ThrowsAt(at)).run
  {
    hide WorldInv, Handle, Reached, Claimable, NoneLiveBut, Claimed, Dispatch, Next;
    ReachedIsReachable(w, true);
    Begins(w, id, kind, body, a, ThrowsAt(at));
    Fails(w.(queue := ClaimJob(w.queue, id, w.now)), id, kind, body, a, ThrowsAt(at));
    z := Next(w, Worked(false, a, ThrowsAt(at)), PLAIN);
    Onward(w, Worked(false, a, ThrowsAt(at)), true);
  }

  // The worker dies at one call, of the handler or of its own, with nothing enqueued.
  lemma Dies(w: World, id: nat, kind: JobKind, body: string, a: Answers, at: Site) returns (z: World)
    requires Reached(w, false) && First(w, id, kind, body) && KEY in w.runs && at !in {At(89), At(90)}
    requires var st := Handle(kind, body, Open(w, KEY), a, DiesAt(at));
      (st.status == Threw(Died) || at == At(91)) && st.enq.None?
    ensures Reached(z, false) && Remains(z, id, kind, body)
    ensures KEY in z.runs && z.runs[KEY] == Note(Handle(kind, body, Open(w, KEY), a, DiesAt(at)).run, WorkerDied)
  {
    hide WorldInv, Handle, Reached, Claimable, Claimed, Dispatch, Next, Note;
    ReachedIsReachable(w, false);
    Begins(w, id, kind, body, a, DiesAt(at));
    Perishes(w.(queue := ClaimJob(w.queue, id, w.now)), id, kind, body, a, DiesAt(at));
    z := Next(w, Worked(false, a, DiesAt(at)), PLAIN);
    Onward(w, Worked(false, a, DiesAt(at)), false);
  }

  // Time passes until the job left can be claimed.
  lemma Rests(w: World, id: nat, kind: JobKind, body: string, alive: bool) returns (z: World)
    requires Reached(w, alive) && Remains(w, id, kind, body) && KEY in w.runs
    ensures Reached(z, alive) && Scene(z, id, kind, body) && z.runs == w.runs
  {
    hide WorldInv, Reached;
    ReachedIsReachable(w, alive);
    LiveIsTimed(w, id);
    var due := w.queue.jobs[id].availableAt;
    var ms := DEFAULT_JOB_LEASE_MS + 1 + if due > w.now then due - w.now else 0;
    z := Next(w, Waited(ms), PLAIN);
    Onward(w, Waited(ms), alive);
  }

  lemma LongerThanAll(ids: set<string>) returns (n: nat)
    ensures forall id | id in ids :: |id| < n
  {
    if ids == {} { return 0; }
    var id :| id in ids;
    var m := LongerThanAll(ids - {id});
    n := if m > |id| then m else |id| + 1;
    assert forall other | other in ids :: other == id || other in ids - {id};
  }

  // A delivery id that was never seen before.
  lemma NewId(ids: set<string>) returns (id: string)
    ensures id !in ids
  {
    var n := LongerThanAll(ids);
    id := seq(n, i => 'x');
  }

  lemma Told(w: World, kind: JobKind, d: Delivery, body: string, alive: bool) returns (z: World)
    requires Reached(w, alive) && KEY in w.runs && NoneLiveBut(w, None)
    requires Deliver(w, d) == Reply(w.(processed := w.processed + {d.id}), KEY, kind, body)
    ensures Reached(z, alive) && First(z, w.queue.next, kind, body)
    ensures KEY in z.runs && z.runs[KEY] == Hear(w.runs[KEY], body)
  {
    hide WorldInv, Reached, Deliver;
    ReachedIsReachable(w, alive);
    z := Next(w, Delivered(d), PLAIN);
    Onward(w, Delivered(d), alive);
  }

  // A human replies to the run at its gate.
  lemma Replies(w: World, kind: JobKind, body: string, alive: bool) returns (z: World)
    requires Reached(w, alive) && KEY in w.runs && NoneLiveBut(w, None)
    requires GateJob(w.runs[KEY].state) == Some(kind)
    ensures Reached(z, alive) && First(z, w.queue.next, kind, body)
    ensures KEY in z.runs && z.runs[KEY] == Hear(w.runs[KEY], body)
  {
    hide Reached, First, NoneLiveBut, Reply;
    var id := NewId(w.processed);
    z := Told(w, kind, IssueCommented(id, Some(1), "owner", "repo", 1, false, Some(body)), body, alive);
  }

  // A human comments on the pull request.
  lemma Comments(w: World, body: string, alive: bool) returns (z: World)
    requires Reached(w, alive) && KEY in w.runs && NoneLiveBut(w, None) && w.runs[KEY].state.AwaitingPrReview?
    ensures Reached(z, alive) && First(z, w.queue.next, Fix, body)
    ensures KEY in z.runs && z.runs[KEY] == Hear(w.runs[KEY], body)
  {
    hide Reached, First, NoneLiveBut, Reply, SpecBranch, IssueNumberFromBranch;
    var id := NewId(w.processed);
    BranchRoundTrip(1);
    z := Told(w, Fix, ReviewCommented(id, Some(1), "owner", "repo", SpecBranch(1), false, Some(body)), body, alive);
  }

  // ---- The first job ----

  const OPENED := Opened("1", Some(1), "owner", "repo", 1)

  // The issue has been opened.
  function Arrived(): World {
    Deliver(Initial(0), OPENED)
  }

  // And its job has been claimed, and its run created.
  function Created(): World
    requires 1 in Arrived().queue.jobs
  {
    var w := Arrived();
    Admit(w.(queue := ClaimJob(w.queue, 1, 0)), w.queue.jobs[1], PLAIN, false, false)
  }

  lemma ArrivedIs()
    ensures var w := Arrived();
      && w.now == 0 && w.runs == map[] && w.queue.next == 2
      && w.queue.jobs == map[1 := Job(KEY, IssueOpened, "", Queued, 0, 0, None)]
  {
  }

  lemma Arrives(alive: bool)
    ensures Reached(Arrived(), alive) && WorldInv(Arrived())
  {
    hide Deliver;
    var start := Initial(0);
    assert Reached(start, alive) by { assert Leads(0, [], start, alive); }
    Onward(start, Delivered(OPENED), alive);
    hide WorldInv, Reached;
    ReachedIsReachable(Arrived(), alive);
  }

  lemma CreatedIs()
    ensures 1 in Arrived().queue.jobs && Claimed(Created(), 1, IssueOpened, "")
    ensures var w := Created();
      && w.queue.next == 2 && w.queue.jobs[1].attempts == 1 && w.now == 0
      && w.runs == map[KEY := NewRun(0, DEFAULT_RUN_BUDGET_NANO_USD)]
  {
    hide WorldInv, Arrived;
    ArrivedIs();
    Arrives(true);
    var w := Arrived();
    ClaimSafe(w, 1);
    AdmitSafe(w.(queue := ClaimJob(w.queue, 1, 0)), w.queue.jobs[1], PLAIN, false, false);
  }

  lemma BeginsNew(a: Answers, f: Faults)
    requires 1 in Arrived().queue.jobs && Some(Died) !in {f(At(89)), f(At(90))}
    ensures 1 in Created().queue.jobs && KEY in Created().runs
    ensures Next(Arrived(), Worked(false, a, f), PLAIN) == Dispatch(Created(), 1, a, f)
  {
    hide WorldInv, Arrived, Dispatch;
    ArrivedIs();
    var w := Arrived();
    assert NextClaimable(w.queue, 0, 0) == Some(1);
  }

  // ---- The handlers on the way, when every call returns ----

  // Collaborators that cost nothing: the spec they draft, the tasks they plan, how each attempt ends.
  function Telling(spec: Spec, tasks: nat, outcome: TaskOutcome): Answers {
    SILENT.(spec := spec, taskCount := tasks, tdd := i => TddReply([], None, outcome))
  }

  predicate Stage(r: Run, s: RunState, spec: Option<Spec>, plan: bool) {
    && r.state == s && r.spent == 0 && r.budget == DEFAULT_RUN_BUDGET_NANO_USD
    && r.hasSpec == spec.Some? && r.ctx.specData == spec && r.hasPlan == plan && r.ctx.planData == plan
    && !r.ctx.dorReclarified && r.ctx.revisions == 0 && r.ctx.fixRounds == 0
    && r.ctx.bootstrap.None? && r.ctx.implHelp.None? && r.tasks == [] && r.pingedAt.None?
  }

  predicate Begun(st: St) {
    Live(st) && st.enq.None?
  }

  lemma Acknowledges(st: St)
    requires Begun(st) && st.run == NewRun(0, DEFAULT_RUN_BUDGET_NANO_USD)
    ensures var r := Handle(IssueOpened, "", st, SILENT, Calm);
      Live(r) && r.enq == Some(NewJob(ProduceSpec, "")) && Stage(r.run, Acknowledged, None, false)
    ensures var r := Handle(IssueOpened, "", st, SILENT, DiesAt(At(2)));
      r.status == Threw(Died) && r.enq.None? && Stage(r.run, Acknowledged, None, false)
  {
    hide HandleProduceSpec, HandleClarify, HandleResumeClarification, HandleProducePlan, HandleResumePlanDecision;
    hide HandleImplement, HandleResumeImplementation, HandleReview, HandleFix;
    hide Ok, Note, Watch, Ask, Call, Tolerate, Effect, Post, SetState, SetContext, Enqueue, RecordSpec, RecordPlan;
    hide OnBudget, OnRefusal, Stranding, CloseWith, Closing, NoteStep;
  }

  lemma Specifies(st: St, spec: Spec)
    requires Begun(st) && Stage(st.run, Acknowledged, None, false)
    ensures var r := Handle(ProduceSpec, "", st, Telling(spec, 0, Landed), Calm);
      Live(r) && r.enq == Some(NewJob(Clarify, "")) && Stage(r.run, Specifying, Some(spec), false)
  {
    hide HandleIssueOpened, HandleClarify, HandleResumeClarification, HandleProducePlan, HandleResumePlanDecision;
    hide HandleImplement, HandleResumeImplementation, HandleReview, HandleFix;
    hide Ok, Note, Watch, Ask, Call, Tolerate, Effect, Post, SetState, SetContext, Enqueue, RecordSpec, RecordPlan;
    hide OnBudget, OnRefusal, Stranding, CloseWith, Closing, NoteStep;
  }

  lemma Clarifies(st: St, spec: Spec)
    requires Begun(st) && Stage(st.run, Specifying, Some(spec), false)
    ensures var r := Handle(Clarify, "", st, SILENT, Calm);
      Live(r) && r.enq == Some(NewJob(ProducePlan, "")) && Stage(r.run, Specified, Some(spec), false)
  {
    hide HandleIssueOpened, HandleProduceSpec, HandleResumeClarification, HandleProducePlan, HandleResumePlanDecision;
    hide HandleImplement, HandleResumeImplementation, HandleReview, HandleFix;
    hide Ok, Note, Watch, Ask, Call, Tolerate, Effect, Post, SetState, SetContext, Enqueue, RecordSpec, RecordPlan;
    hide OnBudget, OnRefusal, Stranding, CloseWith, Closing, NoteStep;
  }

  lemma Plans(st: St)
    requires Begun(st) && Stage(st.run, Specified, Some(READY), false)
    ensures var r := Handle(ProducePlan, "", st, SILENT, Calm);
      Live(r) && r.enq.None? && Stage(r.run, AwaitingPlanApproval, Some(READY), true) && r.run.updatedAt == st.now
  {
    hide HandleIssueOpened, HandleProduceSpec, HandleClarify, HandleResumeClarification, HandleResumePlanDecision;
    hide HandleImplement, HandleResumeImplementation, HandleReview, HandleFix;
    hide Ok, Note, Watch, Ask, Call, Tolerate, Effect, Post, SetState, SetContext, Enqueue, RecordSpec, RecordPlan;
    hide OnBudget, OnRefusal, Stranding, CloseWith, Closing, NoteStep;
  }

  lemma ApproveReads()
    ensures ParsePlanDecision("/approve").Approve?
  {
    assert CommandAt("/approve", "/approve", 0);
  }

  lemma Approves(st: St)
    requires Begun(st) && Stage(st.run, AwaitingPlanApproval, Some(READY), true)
    ensures var r := Handle(ResumePlanDecision, "/approve", st, SILENT, Calm);
      Live(r) && r.enq == Some(NewJob(Implement, "")) && Stage(r.run, Implementing, Some(READY), true)
  {
    hide HandleIssueOpened, HandleProduceSpec, HandleClarify, HandleResumeClarification, HandleProducePlan;
    hide HandleImplement, HandleResumeImplementation, HandleReview, HandleFix;
    ApproveReads();
    hide ParsePlanDecision;
    hide Ok, Note, Watch, Ask, Call, Tolerate, Effect, Post, SetState, SetContext, Enqueue, RecordSpec, RecordPlan;
    hide OnBudget, OnRefusal, Stranding, CloseWith, Closing, NoteStep;
  }

  // ---- The way to each state ----

  lemma ToSpec(alive: bool) returns (w: World, id: nat)
    ensures Reached(w, alive) && First(w, id, ProduceSpec, "")
    ensures KEY in w.runs && Stage(w.runs[KEY], Acknowledged, None, false)
  {
    hide WorldInv, Handle, Reached, Arrived, Dispatch, Stage, Claimable, NoneLiveBut;
    CreatedIs();
    Arrives(alive);
    BeginsNew(SILENT, Calm);
    Acknowledges(Open(Created(), KEY));
    Finishes(Created(), 1, IssueOpened, "", SILENT, Calm);
    w := Next(Arrived(), Worked(false, SILENT, Calm), PLAIN);
    Onward(Arrived(), Worked(false, SILENT, Calm), alive);
    id := Created().queue.next;
  }

  lemma ToClarify(spec: Spec, alive: bool) returns (w: World, id: nat)
    ensures Reached(w, alive) && First(w, id, Clarify, "")
    ensures KEY in w.runs && Stage(w.runs[KEY], Specifying, Some(spec), false)
  {
    hide Handle, Reached, Stage, Claimable, NoneLiveBut;
    var before, at := ToSpec(alive);
    Specifies(Open(before, KEY), spec);
    w := Plays(before, at, ProduceSpec, "", Telling(spec, 0, Landed), alive);
    id := before.queue.next;
  }

  lemma ToPlan(spec: Spec, alive: bool) returns (w: World, id: nat)
    ensures Reached(w, alive) && First(w, id, ProducePlan, "")
    ensures KEY in w.runs && Stage(w.runs[KEY], Specified, Some(spec), false)
  {
    hide Handle, Reached, Stage, Claimable, NoneLiveBut;
    var before, at := ToClarify(spec, alive);
    Clarifies(Open(before, KEY), spec);
    w := Plays(before, at, Clarify, "", SILENT, alive);
    id := before.queue.next;
  }

  lemma ToPlanGate(alive: bool) returns (w: World)
    ensures Reached(w, alive) && NoneLiveBut(w, None)
    ensures KEY in w.runs && Stage(w.runs[KEY], AwaitingPlanApproval, Some(READY), true)
    ensures w.runs[KEY].updatedAt == w.now
  {
    hide Handle, Reached, Stage, Claimable, NoneLiveBut;
    var before, at := ToPlan(READY, alive);
    Plans(Open(before, KEY));
    w := Plays(before, at, ProducePlan, "", SILENT, alive);
  }

  lemma ToDecision(alive: bool) returns (w: World, id: nat)
    ensures Reached(w, alive) && First(w, id, ResumePlanDecision, "/approve")
    ensures KEY in w.runs && Stage(w.runs[KEY], AwaitingPlanApproval, Some(READY), true)
  {
    hide Reached, Claimable, NoneLiveBut;
    var before := ToPlanGate(alive);
    w := Replies(before, ResumePlanDecision, "/approve", alive);
    id := before.queue.next;
  }

  lemma ToImplement(alive: bool) returns (w: World, id: nat)
    ensures Reached(w, alive) && First(w, id, Implement, "")
    ensures KEY in w.runs && Stage(w.runs[KEY], Implementing, Some(READY), true)
  {
    hide Handle, Reached, Stage, Claimable, NoneLiveBut;
    var before, at := ToDecision(alive);
    Approves(Open(before, KEY));
    w := Plays(before, at, ResumePlanDecision, "/approve", SILENT, alive);
    id := before.queue.next;
  }

  // ---- Beyond the way: questions, stalled tasks, reviews ----

  const ASKING: Answers := SILENT.(questions := 1)

  lemma Asks(st: St)
    requires Begun(st) && Stage(st.run, Specifying, Some(READY), false)
    ensures var r := Handle(Clarify, "", st, ASKING, Calm);
      Live(r) && r.enq.None? && Stage(r.run, AwaitingClarification, Some(READY), false)
  {
    hide HandleIssueOpened, HandleProduceSpec, HandleResumeClarification, HandleProducePlan, HandleResumePlanDecision;
    hide HandleImplement, HandleResumeImplementation, HandleReview, HandleFix;
    hide Ok, Note, Watch, Ask, Call, Tolerate, Effect, Post, SetState, SetContext, Enqueue, RecordSpec, RecordPlan;
    hide OnBudget, OnRefusal, Stranding, CloseWith, Closing, NoteStep;
  }

  lemma ToAnswer(alive: bool) returns (w: World, id: nat)
    ensures Reached(w, alive) && First(w, id, ResumeClarification, "")
    ensures KEY in w.runs && Stage(w.runs[KEY], AwaitingClarification, Some(READY), false)
  {
    hide Handle, Reached, Claimable, NoneLiveBut;
    var before, at := ToClarify(READY, alive);
    Asks(Open(before, KEY));
    var gate := Plays(before, at, Clarify, "", ASKING, alive);
    w := Replies(gate, ResumeClarification, "", alive);
    id := gate.queue.next;
  }

  // Parked at the help gate for its one task.
  predicate AtHelpGate(r: Run) {
    r.state.AwaitingImplHelp? && r.hasSpec && r.hasPlan && r.ctx.implHelp.Some? && r.ctx.implHelp.value.rounds == 0
  }

  lemma StallsTurn(st: St)
    requires Live(st) && |st.run.tasks| == 1 && !Exhausted(st.run) && st.run.ctx.implHelp.None?
    ensures var r := TaskTurn(st, 0, Telling(READY, 1, Stalled), Calm);
      && r == st.(run := r.run, status := Returned) && |r.run.tasks| == 1 && r.run.state.AwaitingImplHelp?
      && r.run.ctx.implHelp.Some? && r.run.ctx.implHelp.value.rounds == 0
      && r.run.hasSpec == st.run.hasSpec && r.run.hasPlan == st.run.hasPlan
  {
    hide Ok, Note, Watch, Tolerate, Effect, Post, SetState, SetContext;
  }

  lemma Stalls(st: St)
    requires Begun(st) && Stage(st.run, Implementing, Some(READY), true)
    ensures var r := Handle(Implement, "", st, Telling(READY, 1, Stalled), Calm);
      Live(r) && r.enq.None? && AtHelpGate(r.run)
  {
    hide HandleIssueOpened, HandleProduceSpec, HandleClarify, HandleResumeClarification, HandleProducePlan;
    hide HandleResumePlanDecision, HandleResumeImplementation, HandleReview, HandleFix;
    hide Ok, Note, Watch, Ask, Call, TaskTurn, HandToReview, OnBudget, NoteStep;
    var a := Telling(READY, 1, Stalled);
    var begun := Call(Call(st, Calm, At(0)), Calm, At(1));
    var noted := NoteStep(Ask(begun, a.agent, Calm, At(8)), Decomposed(1));
    assert RecordTasks(noted, 1, Calm) == RecordTask(noted);
    var ready := Call(RecordTask(noted), Calm, At(9));
    StallsTurn(ready);
    var parked := TaskTurn(ready, 0, a, Calm);
    assert TaskLoop(ready, 0, a, Calm) == parked;
    HandToReviewEnds(parked, Calm);
    assert BootstrapStep(begun, a, Calm) == begun;
    assert DecomposeStep(begun, a, Calm) == RecordTasks(noted, 1, Calm);
    assert ImplementBody(begun, a, Calm) == parked;
    assert HandleImplement(st, a, Calm) == parked;
  }

  lemma ToGuidance(alive: bool) returns (w: World, id: nat)
    ensures Reached(w, alive) && First(w, id, ResumeImplementation, "")
    ensures KEY in w.runs && AtHelpGate(w.runs[KEY])
  {
    hide Handle, Reached, Claimable, NoneLiveBut, Stage;
    var before, at := ToImplement(alive);
    Stalls(Open(before, KEY));
    var gate := Plays(before, at, Implement, "", Telling(READY, 1, Stalled), alive);
    w := Replies(gate, ResumeImplementation, "", alive);
    id := gate.queue.next;
  }

  // A plan without tasks is handed on at once.
  lemma NothingToImplement(st: St, f: Faults)
    requires Begun(st) && Stage(st.run, Implementing, Some(READY), true)
    requires f(At(0)).None? && f(At(1)).None? && f(At(8)).None? && f(At(9)).None?
    ensures var begun := Call(Call(st, f, At(0)), f, At(1));
      var ready := Call(NoteStep(Ask(begun, SILENT.agent, f, At(8)), Decomposed(0)), f, At(9));
      && Live(begun) && Live(ready) && ready.enq.None? && ImplementBody(begun, SILENT, f) == HandToReview(ready, f)
  {
    hide Ok, Note, Watch, Ask, Call, NoteStep, HandToReview, TaskTurn;
    var begun := Call(Call(st, f, At(0)), f, At(1));
    var noted := NoteStep(Ask(begun, SILENT.agent, f, At(8)), Decomposed(0));
    assert RecordTasks(noted, 0, f) == noted;
    assert BootstrapStep(begun, SILENT, f) == begun;
    assert DecomposeStep(begun, SILENT, f) == noted;
    var ready := Call(noted, f, At(9));
    assert TaskLoop(ready, 0, SILENT, f) == ready;
  }

  lemma HandsOn(st: St)
    requires Begun(st)
    ensures var r := HandToReview(st, Calm);
      && Live(r) && r.enq == Some(NewJob(Review, ""))
      && r.run == st.run.(state := Reviewing, updatedAt := st.now, history := r.run.history)
      && SameMarks(st.run, r.run)
  {
    hide Ok, Watch, Effect, Tolerate;
  }

  // ---- On to the pull request ----

  // Everything stands ready for the review of a run under this state, its tasks all done.
  predicate Standing(r: Run, s: RunState) {
    && r.state == s && r.spent == 0 && r.budget == DEFAULT_RUN_BUDGET_NANO_USD
    && r.hasSpec && r.hasPlan && r.ctx.specData.Some? && r.ctx.planData && r.ctx.fixRounds == 0
  }

  lemma Implements(st: St)
    requires Begun(st) && Stage(st.run, Implementing, Some(READY), true)
    ensures var r := Handle(Implement, "", st, SILENT, Calm);
      Live(r) && r.enq == Some(NewJob(Review, "")) && Standing(r.run, Reviewing)
  {
    hide HandleIssueOpened, HandleProduceSpec, HandleClarify, HandleResumeClarification, HandleProducePlan;
    hide HandleResumePlanDecision, HandleResumeImplementation, HandleReview, HandleFix;
    hide Ok, Note, Watch, Ask, Call, NoteStep, ImplementBody, HandToReview, OnBudget;
    NothingToImplement(st, Calm);
    var begun := Call(Call(st, Calm, At(0)), Calm, At(1));
    HandsOn(Call(NoteStep(Ask(begun, SILENT.agent, Calm, At(8)), Decomposed(0)), Calm, At(9)));
  }

  lemma Reviews(st: St)
    requires Begun(st) && Standing(st.run, Reviewing)
    ensures var r := Handle(Review, "", st, SILENT, Calm);
      && Live(r) && r.enq.None? && Standing(r.run, AwaitingPrReview)
      && (Watch(st.run.history).planned != |st.run.tasks| ==> Watch(r.run.history).truncated)
  {
    hide HandleIssueOpened, HandleProduceSpec, HandleClarify, HandleResumeClarification, HandleProducePlan;
    hide HandleResumePlanDecision, HandleImplement, HandleResumeImplementation, HandleFix;
    hide Ok, Note, Watch, Ask, Call, Effect, Post, SetState, OnBudget, DoneCount;
  }

  lemma ToPrGate(alive: bool) returns (w: World)
    ensures Reached(w, alive) && NoneLiveBut(w, None)
    ensures KEY in w.runs && Standing(w.runs[KEY], AwaitingPrReview)
  {
    hide Handle, Reached, Claimable, NoneLiveBut, Stage, Standing, Watch;
    var before, at := ToImplement(alive);
    Implements(Open(before, KEY));
    var handed := Plays(before, at, Implement, "", SILENT, alive);
    Reviews(Open(handed, KEY));
    w := Plays(handed, before.queue.next, Review, "", SILENT, alive);
  }

  lemma ToFix(body: string, alive: bool) returns (w: World, id: nat)
    ensures Reached(w, alive) && First(w, id, Fix, body)
    ensures KEY in w.runs && Standing(w.runs[KEY], AwaitingPrReview)
  {
    hide Reached, Claimable, NoneLiveBut;
    var gate := ToPrGate(alive);
    w := Comments(gate, body, alive);
    id := gate.queue.next;
  }
}
