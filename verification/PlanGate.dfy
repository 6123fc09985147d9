// Whether an approval was meant for the plan it approves. Replies wait in the queue, and a decision looks
// at the state of the run alone: one that was given before a plan existed approves that plan too.
module PlanGate {
  import opened Wrappers
  import opened Pipeline
  import opened Plan
  import opened RunInvariant
  import opened Steps
  import opened HandlerSpec
  import opened RunSafety
  import opened RunProgress
  import opened Retry
  import opened JobQueue
  import opened Orchestration
  import opened WorldSafety
  import opened Locality
  import opened WorldFlow
  import opened Liveness
  import opened Movement
  import opened HumanGate
  import opened Branch
  import opened QueueSafety
  import opened Chronicle

  // ---- Reading the history of a run ----

  // `plans`: how many plans were put before the gate.
  // `since`: what the run was told since the last of them.
  // `approved`: an approval has been taken since.
  // `seen`: an approval has been taken since that had been told since.
  // `kept`: every code commit so far found such an approval.
  datatype Gate = Gate(plans: nat, since: set<string>, approved: bool, seen: bool, kept: bool)

  function Heed(g: Gate, e: Event): Gate {
    match e
    case Told(body) => g.(since := g.since + {body})
    case PlanRecorded(_) => Gate(g.plans + 1, {}, false, false, g.kept)
    case Approved(body) => g.(approved := true, seen := g.seen || body in g.since)
    case SetupCommitted => g.(kept := g.kept && g.seen)
    case TaskCommitted(_) => g.(kept := g.kept && g.seen)
    case FixCommitted => g.(kept := g.kept && g.seen)
    case _ => g
  }

  function GateOf(h: History): Gate {
    match h
    case Start => Gate(0, {}, false, false, true)
    case Then(past, e) => Heed(GateOf(past), e)
  }

  lemma GateStep(h: History)
    requires h.Then?
    ensures GateOf(h) == Heed(GateOf(h.past), h.last)
  {
  }

  // The two readings of a history agree on whether the plan in force is approved.
  lemma {:induction false} GateAgrees(h: History)
    ensures GateOf(h).approved <==> ApprovalInForce(h).Some?
    ensures GateOf(h).approved == Watch(h).approved
    ensures GateOf(h).seen ==> GateOf(h).approved
  {
    MonitorReads(h);
    hide Watch;
    if h.Then? {
      hide GateOf, ApprovalInForce;
      GateAgrees(h.past);
      GateStep(h);
      ApprovalStep(h);
    }
  }

  // Additions that record no plan leave the gate as it was, but for the commits they make.
  lemma {:induction false} CodeHeeds(h: History, g: History, s: Scope)
    requires Adds(h, g, s) && !s.plans
    ensures GateOf(g) == GateOf(h).(kept := GateOf(g).kept)
    ensures GateOf(g).kept ==> GateOf(h).kept
    ensures GateOf(h).kept && (GateOf(h).seen || (!s.code && !s.tasks)) ==> GateOf(g).kept
  {
    if h != g {
      hide GateOf;
      CodeHeeds(h, g.past, s);
      GateStep(g);
    }
  }

  // Additions that commit no code either leave the gate as it was or put new plans before it.
  lemma {:induction false} PlansHeed(h: History, g: History, s: Scope)
    requires Adds(h, g, s) && !s.code && !s.tasks
    ensures GateOf(g).kept == GateOf(h).kept
    ensures GateOf(g) == GateOf(h)
         || (GateOf(g).plans > GateOf(h).plans && !GateOf(g).approved && !GateOf(g).seen && GateOf(g).since == {})
  {
    if h != g {
      hide GateOf;
      PlansHeed(h, g.past, s);
      GateStep(g);
    }
  }

  // What any job of the run makes of its gate: nothing but commits, a new plan, or an approval.
  predicate GateMoves(kind: JobKind, body: string, before: Run, after: Run) {
    var g, n := GateOf(before.history), GateOf(after.history);
    || (n == g.(kept := n.kept) && (n.kept ==> g.kept) && (g.kept && g.seen ==> n.kept))
    || (n.plans > g.plans && !n.approved && !n.seen && n.kept == g.kept)
    || (TakesApproval(kind, body, before) && n == Heed(g, Approved(body)))
  }

  lemma MovesHeed(kind: JobKind, body: string, before: Run, after: Run)
    requires MayMove(kind, body, before, after)
    ensures GateMoves(kind, body, before, after)
    ensures GateOf(before.history).kept && !kind.Implement? && !kind.Fix? ==> GateOf(after.history).kept
  {
    hide Adds, GateOf, HasOpenTasks, ParsePlanDecision, Commands;
    var s := ScopeOf(kind, before);
    var told := Then(before.history, Approved(body));
    if Adds(before.history, after.history, s) {
      if s.plans { PlansHeed(before.history, after.history, s); } else { CodeHeeds(before.history, after.history, s); }
    } else {
      PlansHeed(told, after.history, BARE);
      CodeHeeds(told, after.history, BARE);
      GateStep(told);
    }
  }

  // ---- Decisions that wait ----

  // The plan before the gate waits for its first approval.
  predicate PlanOpen(r: Run) {
    r.state.AwaitingPlanApproval? && !GateOf(r.history).approved
  }

  // An approval waits in the queue that nobody has told the run since its last plan.
  predicate IsStaleApproval(j: Job, key: RunKey, r: Run) {
    && IsLive(j) && j.key == key && j.kind.ResumePlanDecision?
    && Commands(j.body, "approve") && j.body !in GateOf(r.history).since
  }

  predicate StaleApprovalWaits(w: World, key: RunKey)
    requires key in w.runs
  {
    exists id | id in w.queue.jobs :: IsStaleApproval(w.queue.jobs[id], key, w.runs[key])
  }

  // The plan then in force was approved since, and by nobody who could have seen it.
  predicate ApprovedUnseen(before: Run, after: Run) {
    var g, n := GateOf(before.history), GateOf(after.history);
    n.plans == g.plans && n.approved && !n.seen
  }

  predicate IsApprovedUnseen(w: World, key: RunKey, z: World)
    requires key in w.runs
  {
    key in z.runs && ApprovedUnseen(w.runs[key], z.runs[key])
  }

  ghost predicate CanBeApprovedUnseen(w: World, key: RunKey)
    requires key in w.runs
  {
    exists steps, c :: IsApprovedUnseen(w, key, After(w, steps, c))
  }

  // ---- No stale approval waits, and none comes ----

  // Plan number `n` is superseded; or its approval, if it has one, is fresh, and if it has none yet, none
  // that is stale waits for it.
  predicate Sealed(w: World, key: RunKey, n: nat) {
    && key in w.runs
    && var g := GateOf(w.runs[key].history);
       g.plans > n || (g.plans == n && if g.approved then g.seen else !StaleApprovalWaits(w, key))
  }

  // ---- Which decisions a step can add ----

  lemma DispatchDecides(w: World, id: nat, a: Answers, f: Faults, other: nat)
    requires WorldInv(w) && id in w.queue.jobs && IsLive(w.queue.jobs[id]) && w.queue.jobs[id].key in w.runs
    requires var z := Dispatch(w, id, a, f);
      other in z.queue.jobs && other !in w.queue.jobs && z.queue.jobs[other].kind.ResumePlanDecision?
    ensures w.runs[w.queue.jobs[id].key].state.AwaitingPrReview?
  {
    hide WorldInv, RunInv, Handle, Put, Settle, Leaves, Served, Drafting, Ready, Voiced, Relays;
    var job := w.queue.jobs[id];
    var st := Executed(w, id, a, f);
    FitsItsRun(w, id);
    PutShape(w, id, job.key, st);
    SettleOnlyJob(Put(w, job.key, st), id, job.key, st.status, f);
    HandleProgress(job.kind, job.body, Open(w, job.key), a, f);
    OnlyFixDecides(job.kind, Open(w, job.key), st);
    if !Acts(job.kind, w.runs[job.key]) { IdleIsNoOp(job.kind, job.body, Open(w, job.key), a, f); }
  }

  lemma OnlyFixDecides(kind: JobKind, st: St, r: St)
    requires Leaves(kind, st, r) && r.enq.Some? && r.enq.value.kind.ResumePlanDecision?
    ensures kind.Fix?
  {
    hide Ready, CountersKept, Strands, MovesOn;
  }

  // Only a rework request of a review adds a decision to the queue.
  lemma ProcessDecides(w: World, id: nat, c: Config, onSubscription: bool, a: Answers, f: Faults, other: nat)
    requires WorldInv(w) && id in w.queue.jobs && Claimable(w.queue.jobs[id], w.now) && w.queue.jobs[id].key in w.runs
    requires var z := ProcessJob(w, id, c, onSubscription, a, f);
      other in z.queue.jobs && other !in w.queue.jobs && z.queue.jobs[other].kind.ResumePlanDecision?
    ensures w.runs[w.queue.jobs[id].key].state.AwaitingPrReview?
  {
    hide WorldInv, Dispatch, Admit, Die;
    var job := w.queue.jobs[id];
    var claimed := w.(queue := ClaimJob(w.queue, id, w.now));
    ClaimSafe(w, id);
    ExistingAdmitted(claimed, job, c, onSubscription, f(At(90)) == Some(Died));
    DieKeepsQueue(claimed, job.key);
    DispatchDecides(claimed, id, a, f, other);
  }

  // A live decision over the run was there before, unless the run was under review.
  lemma DecisionsOld(w: World, id: nat, c: Config, onSubscription: bool, a: Answers, f: Faults, other: nat)
    requires WorldInv(w) && id in w.queue.jobs && Claimable(w.queue.jobs[id], w.now) && w.queue.jobs[id].key in w.runs
    requires !w.runs[w.queue.jobs[id].key].state.AwaitingPrReview?
    requires var z := ProcessJob(w, id, c, onSubscription, a, f);
      other in z.queue.jobs && IsLive(z.queue.jobs[other]) && z.queue.jobs[other].kind.ResumePlanDecision?
    ensures other in w.queue.jobs && IsLive(w.queue.jobs[other])
    ensures SameRequest(w.queue.jobs[other], ProcessJob(w, id, c, onSubscription, a, f).queue.jobs[other])
  {
    hide WorldInv, ProcessJob, Claimable;
    ProcessKept(w, id, c, onSubscription, a, f);
    if other !in w.queue.jobs { ProcessDecides(w, id, c, onSubscription, a, f, other); }
  }

  predicate SameRequest(before: Job, after: Job) {
    after.key == before.key && after.kind == before.kind && after.body == before.body
  }

  lemma UnderReviewApproved(w: World, key: RunKey)
    requires WorldInv(w) && key in w.runs && w.runs[key].state.AwaitingPrReview?
    ensures GateOf(w.runs[key].history).approved
  {
    RunOk(w, key);
    GateAgrees(w.runs[key].history);
    hide GateOf, Watch, DoneCount, Gated, WithinCaps, TasksInOrder, MoneyAdds, ApprovalInForce, WorldInv;
  }

  lemma NoStaleSince(w: World, id: nat, c: Config, onSubscription: bool, a: Answers, f: Faults)
    requires WorldInv(w) && id in w.queue.jobs && Claimable(w.queue.jobs[id], w.now) && w.queue.jobs[id].key in w.runs
    requires !GateOf(w.runs[w.queue.jobs[id].key].history).approved && !StaleApprovalWaits(w, w.queue.jobs[id].key)
    requires var key := w.queue.jobs[id].key;
      var z := ProcessJob(w, id, c, onSubscription, a, f);
      key in z.runs && GateOf(z.runs[key].history).since == GateOf(w.runs[key].history).since
    ensures !StaleApprovalWaits(ProcessJob(w, id, c, onSubscription, a, f), w.queue.jobs[id].key)
  {
    hide WorldInv, ProcessJob, GateOf, ParsePlanDecision, Commands, Claimable;
    var key := w.queue.jobs[id].key;
    var z := ProcessJob(w, id, c, onSubscription, a, f);
    if w.runs[key].state.AwaitingPrReview? { UnderReviewApproved(w, key); }
    forall other | other in z.queue.jobs ensures !IsStaleApproval(z.queue.jobs[other], key, z.runs[key]) {
      assert other in w.queue.jobs ==> !IsStaleApproval(w.queue.jobs[other], key, w.runs[key]);
      if IsLive(z.queue.jobs[other]) && z.queue.jobs[other].kind.ResumePlanDecision? {
        DecisionsOld(w, id, c, onSubscription, a, f, other);
      }
    }
  }

  lemma ProcessSealed(w: World, id: nat, c: Config, onSubscription: bool, a: Answers, f: Faults, n: nat)
    requires WorldInv(w) && id in w.queue.jobs && Claimable(w.queue.jobs[id], w.now)
    requires Sealed(w, w.queue.jobs[id].key, n)
    ensures Sealed(ProcessJob(w, id, c, onSubscription, a, f), w.queue.jobs[id].key, n)
  {
    hide WorldInv, ProcessJob, GateOf, Heed, MayMove, ParsePlanDecision, Commands, StaleApprovalWaits;
    var job := w.queue.jobs[id];
    var z := ProcessJob(w, id, c, onSubscription, a, f);
    ProcessMoves(w, id, c, onSubscription, a, f);
    MovesHeed(job.kind, job.body, w.runs[job.key], z.runs[job.key]);
    var g, m := GateOf(w.runs[job.key].history), GateOf(z.runs[job.key].history);
    if m == g.(kept := m.kept) {
      if !g.approved && g.plans == n { NoStaleSince(w, id, c, onSubscription, a, f); }
    } else if m.plans <= g.plans {
      ApprovalHeeded(w, id, g);
    }
  }

  // The approval that is taken was told since the plan, if no other waits.
  lemma ApprovalHeeded(w: World, id: nat, g: Gate)
    requires id in w.queue.jobs && IsLive(w.queue.jobs[id]) && w.queue.jobs[id].key in w.runs
    requires g == GateOf(w.runs[w.queue.jobs[id].key].history)
    requires TakesApproval(w.queue.jobs[id].kind, w.queue.jobs[id].body, w.runs[w.queue.jobs[id].key])
    ensures var n := Heed(g, Approved(w.queue.jobs[id].body));
      && n.plans == g.plans && n.approved
      && (g.seen || !StaleApprovalWaits(w, w.queue.jobs[id].key) ==> n.seen)
  {
    hide GateOf, ParsePlanDecision, Commands;
    DecisionIff(w.queue.jobs[id].body);
    assert !IsStaleApproval(w.queue.jobs[id], w.queue.jobs[id].key, w.runs[w.queue.jobs[id].key])
      || StaleApprovalWaits(w, w.queue.jobs[id].key);
  }

  // ---- Other steps ----

  lemma ElsewhereSealed(w: World, z: World, other: RunKey, key: RunKey, n: nat)
    requires Local(w, z, other) && key != other && Sealed(w, key, n)
    ensures Sealed(z, key, n)
  {
    hide GateOf, ParsePlanDecision, Commands;
    if StaleApprovalWaits(z, key) {
      var id :| id in z.queue.jobs && IsStaleApproval(z.queue.jobs[id], key, z.runs[key]);
      assert IsStaleApproval(w.queue.jobs[id], key, w.runs[key]);
    }
  }

  lemma DeliveredRun(w: World, d: Delivery, key: RunKey)
    requires key in w.runs
    ensures var z := Deliver(w, d);
      && key in z.runs
      && (z.runs[key] == w.runs[key]
          || (Accepted(d) && d.id !in w.processed && Requested(w, d).Some? && Requested(w, d).value.key == key
              && z.runs[key] == Hear(w.runs[key], Requested(w, d).value.body)))
      && (Accepted(d) && d.id !in w.processed && Requested(w, d).Some? && Requested(w, d).value.key == key
          ==> Requested(w, d).value.kind.IssueOpened? || z.runs[key] == Hear(w.runs[key], Requested(w, d).value.body))
  {
    hide IssueNumberFromBranch, Note;
  }

  lemma HearHeeds(r: Run, body: string)
    ensures GateOf(Hear(r, body).history) == Heed(GateOf(r.history), Told(body))
  {
    hide GateOf;
    GateStep(Hear(r, body).history);
  }

  lemma DeliverSealed(w: World, d: Delivery, key: RunKey, n: nat)
    requires Sealed(w, key, n)
    ensures Sealed(Deliver(w, d), key, n)
  {
    hide Deliver, Requested, Hear, GateOf, ParsePlanDecision, Commands;
    var z := Deliver(w, d);
    DeliveryEnqueues(w, d);
    DeliveredRun(w, d, key);
    if Accepted(d) && d.id !in w.processed && Requested(w, d).Some? && Requested(w, d).value.key == key {
      HearHeeds(w.runs[key], Requested(w, d).value.body);
    }
    forall id | id in z.queue.jobs && IsStaleApproval(z.queue.jobs[id], key, z.runs[key])
      ensures id in w.queue.jobs && IsStaleApproval(w.queue.jobs[id], key, w.runs[key])
    {
    }
  }

  lemma SweptSealed(w: World, posts: RunKey -> PostOutcome, key: RunKey, n: nat)
    requires Sealed(w, key, n)
    ensures Sealed(Sweep(w, posts), key, n)
  {
    hide SweptRun, Outcome, GateOf, ParsePlanDecision, Commands, Adds;
    SweptRunAdds(w.runs[key], w.now, Outcome(w, posts, key));
    PlansHeed(w.runs[key].history, Sweep(w, posts).runs[key].history, BARE);
    CodeHeeds(w.runs[key].history, Sweep(w, posts).runs[key].history, BARE);
    SameStale(w, Sweep(w, posts), key);
  }

  lemma SameStale(w: World, z: World, key: RunKey)
    requires key in w.runs && key in z.runs && z.queue == w.queue
    requires GateOf(z.runs[key].history).since == GateOf(w.runs[key].history).since
    ensures StaleApprovalWaits(z, key) == StaleApprovalWaits(w, key)
  {
    hide GateOf, ParsePlanDecision, Commands;
    forall id | id in w.queue.jobs
      ensures IsStaleApproval(z.queue.jobs[id], key, z.runs[key]) == IsStaleApproval(w.queue.jobs[id], key, w.runs[key])
    {
    }
  }

  lemma NextSealed(w: World, s: Step, c: Config, key: RunKey, n: nat)
    requires WorldInv(w) && Sealed(w, key, n)
    ensures Sealed(Next(w, s, c), key, n)
  {
    hide WorldInv, ProcessJob, Deliver, Sweep, GateOf, StaleApprovalWaits;
    match s
    case Delivered(d) => DeliverSealed(w, d, key, n);
    case Worked(onSubscription, a, f) =>
      var id := NextClaimable(w.queue, 0, w.now);
      if id.Some? {
        if w.queue.jobs[id.value].key == key {
          ProcessSealed(w, id.value, c, onSubscription, a, f, n);
        } else {
          ProcessJobLocal(w, id.value, c, onSubscription, a, f);
          ElsewhereSealed(w, Next(w, s, c), w.queue.jobs[id.value].key, key, n);
        }
      }
    case Swept(posts) => SweptSealed(w, posts, key, n);
    case Waited(ms) => SameStale(w, Next(w, s, c), key);
    case Crashed(d) => SameStale(w, Next(w, s, c), key);
  }

  lemma {:induction false} AlwaysSealed(w: World, steps: seq<Step>, c: Config, key: RunKey, n: nat)
    requires WorldInv(w) && Sealed(w, key, n)
    ensures Sealed(After(w, steps, c), key, n)
  {
    hide WorldInv, Next, Sealed;
    if steps != [] {
      var earlier := steps[..|steps| - 1];
      AlwaysSafe(w, earlier, c);
      AlwaysSealed(w, earlier, c, key, n);
      NextSealed(After(w, earlier, c), steps[|steps| - 1], c, key, n);
    }
  }

  // ---- A stale approval that waits can be taken ----

  lemma {:induction false} DeathsAdd(h: History, g: History)
    requires OnlyDeaths(h, g)
    ensures Adds(h, g, BARE)
  {
    if h != g { DeathsAdd(h, g.past); }
  }

  lemma UnmovedGate(before: Run, after: Run)
    requires OnlyHistory(before, after)
    ensures GateOf(after.history) == GateOf(before.history) && after.state == before.state
  {
    hide GateOf, OnlyDeaths, Adds;
    DeathsAdd(before.history, after.history);
    PlansHeed(before.history, after.history, BARE);
    CodeHeeds(before.history, after.history, BARE);
  }

  lemma ApprovalTaken(w: World, id: nat, c: Config)
    requires WorldInv(w) && id in w.queue.jobs && NextClaimable(w.queue, 0, w.now) == Some(id)
    requires w.queue.jobs[id].key in w.runs
    requires TakesApproval(w.queue.jobs[id].kind, w.queue.jobs[id].body, w.runs[w.queue.jobs[id].key])
    ensures var key := w.queue.jobs[id].key;
      var z := Next(w, Worked(false, SILENT, Calm), c);
      key in z.runs && GateOf(z.runs[key].history) == Heed(GateOf(w.runs[key].history), Approved(w.queue.jobs[id].body))
  {
    hide WorldInv, Dispatch, NextClaimable, GateOf, Heed, ParsePlanDecision, Commands, Adds;
    var job := w.queue.jobs[id];
    var claimed := w.(queue := ClaimJob(w.queue, id, w.now));
    ClaimSafe(w, id);
    ExistingAdmitted(claimed, job, c, false, false);
    DispatchMoves(claimed, id, SILENT, Calm);
    var told := Then(w.runs[job.key].history, Approved(job.body));
    var z := Dispatch(claimed, id, SILENT, Calm);
    PlansHeed(told, z.runs[job.key].history, BARE);
    CodeHeeds(told, z.runs[job.key].history, BARE);
    GateStep(told);
  }

  lemma StaleIsTaken(w: World, key: RunKey, id: nat)
    requires WorldInv(w) && key in w.runs && PlanOpen(w.runs[key])
    requires id in w.queue.jobs && IsStaleApproval(w.queue.jobs[id], key, w.runs[key])
    ensures CanBeApprovedUnseen(w, key)
  {
    hide WorldInv, Next, GateOf, ParsePlanDecision, Commands, NextClaimable;
    var c := Config(None, None);
    var up := BringUp(w, id, key, c);
    var z := After(w, up, c);
    UnmovedGate(w.runs[key], z.runs[key]);
    DecisionIff(w.queue.jobs[id].body);
    ApprovalTaken(z, id, c);
    var s := Worked(false, SILENT, Calm);
    AfterBoth(w, up, [s], c);
    AfterOne(z, s, c);
    GateAgrees(w.runs[key].history);
    assert IsApprovedUnseen(w, key, After(w, up + [s], c));
  }

  // While a plan waits for its first approval, some schedule has it approved by a comment that nobody
  // told the run since that plan was recorded, exactly if such a comment waits in the queue by then.
  lemma ApprovedUnseenIff(w: World, key: RunKey)
    requires Reachable(w) && key in w.runs && PlanOpen(w.runs[key])
    ensures CanBeApprovedUnseen(w, key) <==> StaleApprovalWaits(w, key)
  {
    hide WorldInv, Reachable, GateOf, ParsePlanDecision, Commands, After;
    ReachableInv(w);
    if StaleApprovalWaits(w, key) {
      var id :| id in w.queue.jobs && IsStaleApproval(w.queue.jobs[id], key, w.runs[key]);
      StaleIsTaken(w, key, id);
    } else {
      var n := GateOf(w.runs[key].history).plans;
      forall steps, c ensures !IsApprovedUnseen(w, key, After(w, steps, c)) {
        AlwaysSealed(w, steps, c, key, n);
      }
    }
  }

  // ---- What the gate says of a history ----

  lemma {:induction false} PlansGrow(h: History, past: History, e: Event)
    requires Happened(h, past, e)
    ensures GateOf(past).plans <= GateOf(h).plans
  {
    hide GateOf;
    GateStep(h);
    if !(h.past == past && h.last == e) { PlansGrow(h.past, past, e); }
  }

  // The run was told this after its last plan was recorded.
  ghost predicate ToldSince(h: History, body: string) {
    exists told :: Happened(h, told, Told(body)) && GateOf(told).plans == GateOf(h).plans
  }

  lemma {:induction false} SinceIff(h: History, body: string)
    ensures body in GateOf(h).since <==> ToldSince(h, body)
  {
    if h.Then? {
      hide GateOf;
      SinceIff(h.past, body);
      GateStep(h);
      forall told | Happened(h.past, told, Told(body)) ensures GateOf(told).plans <= GateOf(h.past).plans {
        PlansGrow(h.past, told, Told(body));
      }
      if ToldSince(h.past, body) {
        var told :| Happened(h.past, told, Told(body)) && GateOf(told).plans == GateOf(h.past).plans;
        assert Happened(h, told, Told(body));
      }
      assert Happened(h, h.past, h.last);
    }
  }

  // The plan in force was approved by a comment that was told after it was recorded.
  ghost predicate ApprovedSince(h: History) {
    exists taken, body :: Happened(h, taken, Approved(body)) && TookSince(h, taken, body)
  }

  ghost predicate TookSince(h: History, taken: History, body: string) {
    GateOf(taken).plans == GateOf(h).plans && ToldSince(taken, body)
  }

  lemma SeenThen(h: History)
    requires h.Then? && GateOf(h).seen && (GateOf(h.past).seen ==> ApprovedSince(h.past))
    ensures ApprovedSince(h)
  {
    hide GateOf, ToldSince;
    GateStep(h);
    if h.last.Approved? && h.last.body in GateOf(h.past).since {
      SinceIff(h.past, h.last.body);
      assert Happened(h, h.past, Approved(h.last.body)) && TookSince(h, h.past, h.last.body);
    } else {
      var taken, body :| Happened(h.past, taken, Approved(body)) && TookSince(h.past, taken, body);
      assert Happened(h, taken, Approved(body)) && TookSince(h, taken, body);
    }
  }

  lemma ThenSeen(h: History)
    requires h.Then? && ApprovedSince(h) && (ApprovedSince(h.past) ==> GateOf(h.past).seen)
    ensures GateOf(h).seen
  {
    hide GateOf, ToldSince;
    GateStep(h);
    var taken, body :| Happened(h, taken, Approved(body)) && TookSince(h, taken, body);
    if taken == h.past && h.last == Approved(body) {
      SinceIff(h.past, body);
    } else {
      PlansGrow(h.past, taken, Approved(body));
      assert TookSince(h.past, taken, body);
    }
  }

  lemma {:induction false} SeenIff(h: History)
    ensures GateOf(h).seen <==> ApprovedSince(h)
  {
    if h.Then? {
      hide GateOf, ApprovedSince;
      SeenIff(h.past);
      if GateOf(h).seen { SeenThen(h); }
      if ApprovedSince(h) { ThenSeen(h); }
    }
  }

  lemma {:induction false} KeptAll(h: History, past: History, e: Event)
    requires Happened(h, past, e) && IsCodeCommit(e) && GateOf(h).kept
    ensures GateOf(past).seen
  {
    hide GateOf;
    GateStep(h);
    if !(h.past == past && h.last == e) { KeptAll(h.past, past, e); }
  }

  // ---- Code under a plan somebody saw ----

  // Commits under approvals that were told since keep the record clean.
  lemma {:induction false} CodeKept(h: History, g: History, s: Scope)
    requires Adds(h, g, s) && !s.plans && Watch(g).sound
    requires GateOf(h).kept && (GateOf(h).approved ==> GateOf(h).seen)
    ensures GateOf(g).kept
  {
    if h != g {
      hide GateOf, Watch, Observe, Adds;
      AddsStep(h, g, s);
      WatchStep(g);
      ObserveKeeps(Watch(g.past), g.last);
      CodeKept(h, g.past, s);
      CodeHeeds(h, g.past, s);
      GateStep(g);
      GateAgrees(g.past);
      if IsCodeCommit(g.last) { CodeObserved(Watch(g.past), g.last); }
    }
  }

  lemma AddsStep(h: History, g: History, s: Scope)
    requires Adds(h, g, s) && h != g
    ensures g.Then? && Adds(h, g.past, s) && InScope(g.last, s)
  {
  }

  lemma CodeObserved(m: Monitor, e: Event)
    requires Observe(m, e).sound && IsCodeCommit(e)
    ensures m.approved
  {
  }

  // Every code commit so far was made under an approval told after its plan, and so is the present one.
  predicate IsTrusted(r: Run) {
    GateOf(r.history).kept && (GateOf(r.history).approved ==> GateOf(r.history).seen)
  }

  predicate Trusted(w: World, key: RunKey) {
    key in w.runs ==> IsTrusted(w.runs[key])
  }

  // No stale approval waits for a plan that has none.
  predicate NoneStale(w: World, key: RunKey) {
    key in w.runs && PlanOpen(w.runs[key]) ==> !StaleApprovalWaits(w, key)
  }

  lemma TrustedMoves(w: World, id: nat, after: Run)
    requires id in w.queue.jobs && IsLive(w.queue.jobs[id]) && w.queue.jobs[id].key in w.runs
    requires var job := w.queue.jobs[id];
      MayMove(job.kind, job.body, w.runs[job.key], after) && IsTrusted(w.runs[job.key]) && NoneStale(w, job.key)
    requires Watch(after.history).sound
    ensures IsTrusted(after)
  {
    hide GateOf, Heed, Adds, Watch, HasOpenTasks, ParsePlanDecision, Commands, StaleApprovalWaits;
    var job := w.queue.jobs[id];
    var before := w.runs[job.key];
    MovesHeed(job.kind, job.body, before, after);
    GateAgrees(after.history);
    GateAgrees(before.history);
    var s := ScopeOf(job.kind, before);
    if Adds(before.history, after.history, s) {
      if s.plans { PlansHeed(before.history, after.history, s); } else { CodeKept(before.history, after.history, s); }
    } else {
      ApprovalHeeded(w, id, GateOf(before.history));
    }
  }

  lemma SoundRun(w: World, key: RunKey)
    requires WorldInv(w) && key in w.runs
    ensures Watch(w.runs[key].history).sound
  {
    hide WorldInv, Watch, MayEnter, WithinCaps, TasksInOrder, MoneyAdds;
    RunOk(w, key);
  }

  lemma ProcessTrusted(w: World, id: nat, c: Config, onSubscription: bool, a: Answers, f: Faults)
    requires WorldInv(w) && id in w.queue.jobs && Claimable(w.queue.jobs[id], w.now)
    requires Trusted(w, w.queue.jobs[id].key) && NoneStale(w, w.queue.jobs[id].key)
    ensures Trusted(ProcessJob(w, id, c, onSubscription, a, f), w.queue.jobs[id].key)
  {
    hide WorldInv, ProcessJob, IsTrusted, NoneStale, MayMove, Adds, Watch;
    var key := w.queue.jobs[id].key;
    var z := ProcessJob(w, id, c, onSubscription, a, f);
    ProcessMoves(w, id, c, onSubscription, a, f);
    ProcessJobSafe(w, id, c, onSubscription, a, f);
    if key in z.runs {
      SoundRun(z, key);
      if key in w.runs { TrustedMoves(w, id, z.runs[key]); } else { NewIsTrusted(z.runs[key]); }
    }
  }

  lemma NewIsTrusted(r: Run)
    requires Adds(Start, r.history, BARE)
    ensures IsTrusted(r)
  {
    hide Adds;
    PlansHeed(Start, r.history, BARE);
    CodeHeeds(Start, r.history, BARE);
  }

  lemma SweptTrusted(r: Run, now: int, post: PostOutcome)
    requires IsTrusted(r)
    ensures IsTrusted(SweptRun(r, now, post))
  {
    hide Adds, GateOf, SweptRun;
    SweptRunAdds(r, now, post);
    PlansHeed(r.history, SweptRun(r, now, post).history, BARE);
    CodeHeeds(r.history, SweptRun(r, now, post).history, BARE);
  }

  lemma DeliverTrusted(w: World, d: Delivery, key: RunKey)
    requires Trusted(w, key)
    ensures Trusted(Deliver(w, d), key)
  {
    hide Deliver, Requested, Hear, GateOf;
    if key in w.runs {
      DeliveredRun(w, d, key);
      if Accepted(d) && d.id !in w.processed && Requested(w, d).Some? {
        HearHeeds(w.runs[key], Requested(w, d).value.body);
      }
    } else {
      DeliveryCreatesNone(w, d, key);
    }
  }

  lemma DeliveryCreatesNone(w: World, d: Delivery, key: RunKey)
    requires key !in w.runs
    ensures key !in Deliver(w, d).runs
  {
    hide IssueNumberFromBranch, Note;
  }

  lemma NextTrusted(w: World, s: Step, c: Config, key: RunKey)
    requires WorldInv(w) && Trusted(w, key) && NoneStale(w, key)
    ensures Trusted(Next(w, s, c), key)
  {
    hide WorldInv, ProcessJob, Deliver, SweptRun, Outcome, IsTrusted, NoneStale;
    match s
    case Delivered(d) => DeliverTrusted(w, d, key);
    case Worked(onSubscription, a, f) =>
      var id := NextClaimable(w.queue, 0, w.now);
      if id.Some? {
        if w.queue.jobs[id.value].key == key {
          ProcessTrusted(w, id.value, c, onSubscription, a, f);
        } else {
          ProcessJobLocal(w, id.value, c, onSubscription, a, f);
        }
      }
    case Swept(posts) =>
      if key in w.runs { SweptTrusted(w.runs[key], w.now, Outcome(w, posts, key)); }
    case Waited(ms) =>
    case Crashed(d) =>
  }

  lemma {:induction false} AlwaysTrusted(w: World, steps: seq<Step>, c: Config, key: RunKey)
    requires WorldInv(w) && Trusted(w, key)
    requires forall i | 0 <= i < |steps| :: NoneStale(After(w, steps[..i], c), key)
    ensures Trusted(After(w, steps, c), key)
  {
    hide WorldInv, Next, Trusted, NoneStale;
    if steps != [] {
      var earlier := steps[..|steps| - 1];
      forall i | 0 <= i < |earlier| ensures NoneStale(After(w, earlier[..i], c), key) {
        assert earlier[..i] == steps[..i];
      }
      AlwaysSafe(w, earlier, c);
      AlwaysTrusted(w, earlier, c, key);
      assert steps[..|earlier|] == earlier;
      NextTrusted(After(w, earlier, c), steps[|steps| - 1], c, key);
    }
  }

  // If no stale approval ever waits for a plan that has none, then every code commit follows an approval
  // of the plan in force, by a comment that a human told the run after that plan was recorded.
  lemma CodeFollowsPlan(now: int, steps: seq<Step>, c: Config, key: RunKey, past: History, e: Event)
    requires forall i | 0 <= i < |steps| :: NoneStale(After(Initial(now), steps[..i], c), key)
    requires key in After(Initial(now), steps, c).runs
    requires Happened(After(Initial(now), steps, c).runs[key].history, past, e) && IsCodeCommit(e)
    ensures ApprovedSince(past)
  {
    hide After, NoneStale, GateOf, Happened, ApprovedSince;
    InitialInv(now);
    AlwaysTrusted(Initial(now), steps, c, key);
    KeptAll(After(Initial(now), steps, c).runs[key].history, past, e);
    SeenIff(past);
  }
}
