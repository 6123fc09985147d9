// What holds of the job queue and of webhook deliveries over every run of the system, with the worker
// dying wherever it may.
module QueueSafety {
  import opened Wrappers
  import opened Pipeline
  import opened RunInvariant
  import opened Steps
  import opened HandlerSpec
  import opened RunProgress
  import opened Retry
  import opened JobQueue
  import opened Branch
  import opened Orchestration
  import opened WorldSafety
  import opened Locality
  import opened WorldFlow
  import opened Liveness

  // ---- Jobs ----

  predicate IsOver(j: Job) {
    j.status.Finished? || j.status.Dead?
  }

  // No job disappears or changes what it asks for, and a finished or dead one never changes at all.
  ghost predicate JobsKept(before: map<nat, Job>, after: map<nat, Job>) {
    forall id | id in before ::
      && id in after
      && after[id].key == before[id].key && after[id].kind == before[id].kind && after[id].body == before[id].body
      && before[id].attempts <= after[id].attempts
      && (IsOver(before[id]) ==> after[id] == before[id])
  }

  lemma PutKept(w: World, key: RunKey, st: St)
    requires WorldInv(w)
    ensures JobsKept(w.queue.jobs, Put(w, key, st).queue.jobs)
  {
    hide RunInv, JobFits, JobCounted, JobTimed, ClaimsApart;
  }

  lemma SettleKept(w: World, id: nat, key: RunKey, status: Status, f: Faults)
    requires id in w.queue.jobs && !IsOver(w.queue.jobs[id])
    ensures JobsKept(w.queue.jobs, Settle(w, id, key, status, f).queue.jobs)
  {
    hide Settle;
    SettleOnlyJob(w, id, key, status, f);
  }

  lemma KeptTransitive(a: map<nat, Job>, b: map<nat, Job>, c: map<nat, Job>)
    requires JobsKept(a, b) && JobsKept(b, c)
    ensures JobsKept(a, c)
  {
  }

  lemma DispatchKept(w: World, id: nat, a: Answers, f: Faults)
    requires WorldInv(w) && id in w.queue.jobs && w.queue.jobs[id].key in w.runs && !IsOver(w.queue.jobs[id])
    ensures JobsKept(w.queue.jobs, Dispatch(w, id, a, f).queue.jobs)
  {
    hide WorldInv, Handle, Settle, Put, JobsKept;
    var job := w.queue.jobs[id];
    var r := Handle(job.kind, job.body, Open(w, job.key), a, f);
    var put := Put(w, job.key, r);
    PutKept(w, job.key, r);
    PutKeepsJob(w, job.key, r, id);
    SettleKept(put, id, job.key, r.status, f);
    KeptTransitive(w.queue.jobs, put.queue.jobs, Dispatch(w, id, a, f).queue.jobs);
  }

  lemma ClaimKept(q: Queue, id: nat, now: int)
    requires id in q.jobs && Claimable(q.jobs[id], now)
    ensures JobsKept(q.jobs, ClaimJob(q, id, now).jobs)
  {
  }

  lemma ProcessKept(w: World, id: nat, c: Config, onSubscription: bool, a: Answers, f: Faults)
    requires WorldInv(w) && id in w.queue.jobs && Claimable(w.queue.jobs[id], w.now)
    ensures JobsKept(w.queue.jobs, ProcessJob(w, id, c, onSubscription, a, f).queue.jobs)
  {
    hide WorldInv, Admit, Settle, Dispatch, Die, JobsKept;
    var job := w.queue.jobs[id];
    var dies := f(At(90)) == Some(Died);
    var claimed := w.(queue := ClaimJob(w.queue, id, w.now));
    ClaimKept(w.queue, id, w.now);
    ClaimSafe(w, id);
    AdmitLocal(w, id, job, c, onSubscription, dies);
    AdmitSafe(claimed, job, c, onSubscription, dies);
    var admitted := Admit(claimed, job, c, onSubscription, dies);
    DieKeepsQueue(claimed, job.key);
    DieKeepsQueue(admitted, job.key);
    if !dies && f(At(89)) != Some(Died) {
      if job.key !in admitted.runs {
        SettleKept(admitted, id, job.key, Running, f);
      } else {
        DispatchKept(admitted, id, a, f);
      }
      KeptTransitive(w.queue.jobs, claimed.queue.jobs, ProcessJob(w, id, c, onSubscription, a, f).queue.jobs);
    }
  }

  lemma DeliverKept(w: World, d: Delivery)
    requires WorldInv(w)
    ensures JobsKept(w.queue.jobs, Deliver(w, d).queue.jobs)
  {
    hide RunInv, JobFits, JobCounted, JobTimed, ClaimsApart;
  }

  lemma NextKept(w: World, s: Step, c: Config)
    requires WorldInv(w)
    ensures JobsKept(w.queue.jobs, Next(w, s, c).queue.jobs)
  {
    hide WorldInv, ProcessJob, Deliver;
    match s
    case Delivered(d) => DeliverKept(w, d);
    case Worked(onSubscription, a, f) =>
      var id := NextClaimable(w.queue, 0, w.now);
      if id.Some? { ProcessKept(w, id.value, c, onSubscription, a, f); }
    case Swept(posts) =>
    case Waited(ms) =>
    case Crashed(d) =>
  }

  // Finished and dead are absorbing under one worker, however often that worker dies.
  lemma {:induction false} OverForever(w: World, steps: seq<Step>, c: Config)
    requires WorldInv(w)
    ensures JobsKept(w.queue.jobs, After(w, steps, c).queue.jobs)
  {
    hide WorldInv, Next, JobsKept;
    if steps != [] {
      var earlier := steps[..|steps| - 1];
      OverForever(w, earlier, c);
      AlwaysSafe(w, earlier, c);
      NextKept(After(w, earlier, c), steps[|steps| - 1], c);
      KeptTransitive(w.queue.jobs, After(w, earlier, c).queue.jobs, After(w, steps, c).queue.jobs);
    } else {
      SameJobs(w.queue.jobs);
    }
  }

  lemma SameJobs(jobs: map<nat, Job>)
    ensures JobsKept(jobs, jobs)
  {
  }

  // In every reachable state a job's attempts are its claims, at most the cap plus the leases taken
  // over; no unexpired lease was ever taken over, and every other claim waited out its backoff.
  lemma ClaimsCounted(w: World)
    requires Reachable(w)
    ensures forall id | id in w.queue.jobs ::
      && w.queue.jobs[id].attempts == Claims(w.queue.claims, id)
      && w.queue.jobs[id].attempts <= MAX_JOB_ATTEMPTS + Reclaims(w.queue.claims, id)
    ensures ClaimsApart(w.queue.claims)
  {
    ReachableInv(w);
    hide Reachable, JobFits, RunInv, ClaimsApart, Claims, Reclaims, JobTimed;
  }

  // ---- Deliveries ----

  // What a delivery asks for in this state: the job, and the run it is for.
  datatype Request = Request(key: RunKey, kind: JobKind, body: string)

  // An opened issue always gets its job, a comment only at a gate, a review only at the review gate.
  function Requested(w: World, d: Delivery): Option<Request>
    requires Accepted(d)
  {
    match d
    case Opened(_, installation, owner, repo, issue) =>
      Some(Request(RunKey(installation.value, owner, repo, issue), IssueOpened, ""))
    case IssueCommented(_, installation, owner, repo, issue, _, body) =>
      var key := RunKey(installation.value, owner, repo, issue);
      if key in w.runs && GateJob(w.runs[key].state).Some?
      then Some(Request(key, GateJob(w.runs[key].state).value, body.GetOr(""))) else None
    case ReviewCommented(_, installation, owner, repo, branch, _, body) =>
      RequestedFix(w, BranchKey(installation.value, owner, repo, IssueNumberFromBranch(branch).value), body.GetOr(""))
    case ReviewSubmitted(_, installation, owner, repo, branch, _, body, _) =>
      RequestedFix(w, BranchKey(installation.value, owner, repo, IssueNumberFromBranch(branch).value), body.GetOr(""))
    case Uninstalled(_) => None
  }

  function RequestedFix(w: World, key: Option<RunKey>, body: string): Option<Request> {
    if key.Some? && key.value in w.runs && w.runs[key.value].state.AwaitingPrReview?
    then Some(Request(key.value, Fix, body)) else None
  }

  // A first delivery enqueues exactly the job it asks for, and touches no job and no count of deaths else.
  lemma DeliveryEnqueues(w: World, d: Delivery)
    ensures var z := Deliver(w, d);
      && z.deaths == w.deaths && z.now == w.now
      && z.queue ==
         if Accepted(d) && d.id !in w.processed && Requested(w, d).Some? then
           var request := Requested(w, d).value;
           EnqueueJob(w.queue, request.key, request.kind, request.body, w.now)
         else w.queue
  {
    hide IssueNumberFromBranch, Note;
  }

  // What makes a delivery change nothing: it came before, names no installation, is by a bot, as the product
  // itself is, is a review that asks for nothing, or is on a branch that is not the product's.
  lemma DeliveryIgnoredIff(w: World, d: Delivery)
    ensures Deliver(w, d) == w <==>
      || d.id in w.processed
      || (!d.Uninstalled? && d.installation.None?)
      || (!d.Uninstalled? && !d.Opened? && d.fromBot)
      || (d.ReviewSubmitted? && !d.changesRequested)
      || ((d.ReviewCommented? || d.ReviewSubmitted?) && IssueNumberFromBranch(d.branch).None?)
  {
    hide IssueNumberFromBranch, Note;
    if Accepted(d) && d.id !in w.processed {
      assert d.id in w.processed + {d.id};
      RouteKeepsMark(w.(processed := w.processed + {d.id}), d);
    }
  }

  lemma RouteKeepsMark(w: World, d: Delivery)
    requires Accepted(d)
    ensures Route(w, d).processed == w.processed
  {
    hide IssueNumberFromBranch, Note;
  }

  const REPLIES := {ResumeClarification, ResumePlanDecision, ResumeImplementation}

  // A comment on an issue becomes the one reply that has something to do for the run as it stands, and
  // nothing where none has.
  lemma CommentRoutedIff(w: World, d: Delivery)
    requires WorldInv(w) && d.IssueCommented? && Accepted(d)
    ensures var key := RunKey(d.installation.value, d.owner, d.repo, d.issue);
      && (Requested(w, d).Some? ==> Requested(w, d).value.kind in REPLIES)
      && forall kind | kind in REPLIES ::
           Requested(w, d) == Some(Request(key, kind, d.body.GetOr(""))) <==> key in w.runs && Acts(kind, w.runs[key])
  {
    hide WorldInv;
    var key := RunKey(d.installation.value, d.owner, d.repo, d.issue);
    if key in w.runs { GateHasSpec(w, key); }
  }

  lemma GateHasSpec(w: World, key: RunKey)
    requires WorldInv(w) && key in w.runs
    ensures w.runs[key].state.AwaitingClarification? ==> w.runs[key].hasSpec
  {
    hide WorldInv, Watch, DoneCount, Gated, WithinCaps, TasksInOrder, MoneyAdds;
    RunOk(w, key);
  }

  // A review of the product's own branch becomes a fix exactly if its run waits for a review.
  lemma ReviewRoutedIff(w: World, d: Delivery, issue: nat)
    requires (d.ReviewCommented? || d.ReviewSubmitted?) && d.branch == SpecBranch(issue) && issue < TWO_TO_THE_53
    requires Accepted(d)
    ensures var key := RunKey(d.installation.value, d.owner, d.repo, issue);
      Requested(w, d) == if key in w.runs && Acts(Fix, w.runs[key]) then Some(Request(key, Fix, d.body.GetOr(""))) else None
  {
    hide SpecBranch, IssueNumberFromBranch;
    BranchRoundTrip(issue);
  }

  // The step let the delivery `id` enqueue a job.
  predicate Enqueued(w: World, s: Step, c: Config, id: string) {
    s.Delivered? && s.d.id == id && Next(w, s, c).queue.next > w.queue.next
  }

  function JobsFrom(w: World, steps: seq<Step>, c: Config, id: string): nat {
    if steps == [] then 0
    else
      var earlier := steps[..|steps| - 1];
      JobsFrom(w, earlier, c, id) + if Enqueued(After(w, earlier, c), steps[|steps| - 1], c, id) then 1 else 0
  }

  // A delivery that is accepted changes nothing when it comes again; one that is not never did.
  lemma RedeliveryIgnored(w: World, d: Delivery)
    ensures Deliver(Deliver(w, d), d) == Deliver(w, d)
    ensures !Accepted(d) ==> Deliver(w, d) == w
  {
    DeliverMarks(w, d);
  }

  // A delivery enqueues one job at most, and then its id counts as processed.
  lemma DeliverMarks(w: World, d: Delivery)
    ensures var r := Deliver(w, d);
      && w.queue.next <= r.queue.next <= w.queue.next + 1
      && (Accepted(d) ==> d.id in r.processed)
      && w.processed <= r.processed
  {
  }

  lemma DispatchKeepsMarks(w: World, id: nat, a: Answers, f: Faults)
    requires id in w.queue.jobs && w.queue.jobs[id].key in w.runs && WorldInv(w)
    ensures Dispatch(w, id, a, f).processed == w.processed
  {
    hide Handle, Settle, WorldInv;
    var job := w.queue.jobs[id];
    var r := Handle(job.kind, job.body, Open(w, job.key), a, f);
    PutKeepsJob(w, job.key, r, id);
    SettleOnlyJob(Put(w, job.key, r), id, job.key, r.status, f);
  }

  lemma AdmitKeepsMarks(w: World, job: Job, c: Config, onSubscription: bool, dies: bool)
    ensures var r := Admit(w, job, c, onSubscription, dies);
      r.processed == w.processed && Die(r, job.key).processed == w.processed
  {
    hide Note, NewRun, BirthBudget;
  }

  lemma ProcessKeepsMarks(w: World, id: nat, c: Config, onSubscription: bool, a: Answers, f: Faults)
    requires WorldInv(w) && id in w.queue.jobs && Claimable(w.queue.jobs[id], w.now)
    ensures ProcessJob(w, id, c, onSubscription, a, f).processed == w.processed
  {
    hide WorldInv, Admit, Settle, Dispatch, Die;
    var job := w.queue.jobs[id];
    var dies := f(At(90)) == Some(Died);
    var claimed := w.(queue := ClaimJob(w.queue, id, w.now));
    var admitted := Admit(claimed, job, c, onSubscription, dies);
    ClaimSafe(w, id);
    AdmitLocal(w, id, job, c, onSubscription, dies);
    AdmitSafe(claimed, job, c, onSubscription, dies);
    AdmitKeepsMarks(claimed, job, c, onSubscription, dies);
    DieKeepsQueue(claimed, job.key);
    if !dies && f(At(89)) != Some(Died) {
      if job.key !in admitted.runs {
        SettleOnlyJob(admitted, id, job.key, Running, f);
      } else {
        DispatchKeepsMarks(admitted, id, a, f);
      }
    }
  }

  lemma NextKeepsMarks(w: World, s: Step, c: Config)
    requires WorldInv(w)
    ensures w.processed <= Next(w, s, c).processed
  {
    hide WorldInv, ProcessJob, Deliver, SweptRun;
    if s.Delivered? {
      DeliverMarks(w, s.d);
    } else if s.Worked? {
      var id := NextClaimable(w.queue, 0, w.now);
      if id.Some? { ProcessKeepsMarks(w, id.value, c, s.onSubscription, s.a, s.f); }
    }
  }

  // However often a webhook is redelivered, it enqueues at most one job in the life of the system.
  lemma {:induction false} OneJobPerDelivery(w: World, steps: seq<Step>, c: Config, id: string)
    requires WorldInv(w)
    ensures JobsFrom(w, steps, c, id) <= 1
    ensures JobsFrom(w, steps, c, id) == 1 ==> id in After(w, steps, c).processed
    ensures id in w.processed ==> JobsFrom(w, steps, c, id) == 0 && id in After(w, steps, c).processed
  {
    hide WorldInv, Next, Enqueued;
    if steps != [] {
      var earlier := steps[..|steps| - 1];
      AlwaysSafe(w, earlier, c);
      OneJobPerDelivery(w, earlier, c, id);
      NextKeepsMarks(After(w, earlier, c), steps[|steps| - 1], c);
      EnqueuedOnce(After(w, earlier, c), steps[|steps| - 1], c, id);
    }
  }

  lemma EnqueuedOnce(w: World, s: Step, c: Config, id: string)
    ensures Enqueued(w, s, c, id) ==> id !in w.processed && id in Next(w, s, c).processed
  {
    if s.Delivered? { DeliverMarks(w, s.d); }
  }

  // The step takes the delivery `id` up: it enqueues its job, or dies before that.
  predicate Marks(s: Step, id: string) {
    (s.Delivered? || s.Crashed?) && s.d.id == id && Accepted(s.d)
  }

  // Step `i` is the first that takes the delivery up; it does not die, and the delivery asks for a job then.
  predicate Lands(w: World, steps: seq<Step>, c: Config, id: string, i: nat) {
    && i < |steps| && Marks(steps[i], id)
    && (forall j | 0 <= j < i :: !Marks(steps[j], id))
    && steps[i].Delivered? && Requested(After(w, steps[..i], c), steps[i].d).Some?
  }

  lemma EnqueuedIff(w: World, s: Step, c: Config, id: string)
    ensures Enqueued(w, s, c, id) <==>
      s.Delivered? && Marks(s, id) && id !in w.processed && Requested(w, s.d).Some?
  {
    hide Deliver, Requested;
    if s.Delivered? { DeliveryEnqueues(w, s.d); }
  }

  lemma MarksIff(w: World, s: Step, c: Config, id: string)
    requires WorldInv(w)
    ensures id in Next(w, s, c).processed <==> id in w.processed || Marks(s, id)
  {
    hide WorldInv, ProcessJob, Note, SweptRun, Outcome;
    if s.Worked? {
      var job := NextClaimable(w.queue, 0, w.now);
      if job.Some? { ProcessKeepsMarks(w, job.value, c, s.onSubscription, s.a, s.f); }
    }
  }

  lemma {:induction false} MarkedIff(w: World, steps: seq<Step>, c: Config, id: string)
    requires WorldInv(w)
    ensures id in After(w, steps, c).processed <==>
      id in w.processed || exists j | 0 <= j < |steps| :: Marks(steps[j], id)
  {
    hide WorldInv, Next, Marks;
    if steps != [] {
      var earlier := steps[..|steps| - 1];
      AlwaysSafe(w, earlier, c);
      MarkedIff(w, earlier, c, id);
      MarksIff(After(w, earlier, c), steps[|steps| - 1], c, id);
      assert forall j | 0 <= j < |earlier| :: steps[j] == earlier[j];
    }
  }

  // One step more lands the delivery if it landed before, or if this step does it.
  lemma LandsStep(w: World, steps: seq<Step>, c: Config, id: string)
    requires steps != []
    ensures var earlier := steps[..|steps| - 1];
      (exists i :: Lands(w, steps, c, id, i)) <==>
        (exists i :: Lands(w, earlier, c, id, i)) || Lands(w, steps, c, id, |earlier|)
  {
    hide After, Requested, Marks;
    var earlier := steps[..|steps| - 1];
    forall i: nat | i < |earlier| ensures Lands(w, steps, c, id, i) <==> Lands(w, earlier, c, id, i) {
      assert steps[..i] == earlier[..i];
      assert forall j | 0 <= j <= i :: steps[j] == earlier[j];
    }
  }

  lemma {:induction false} LandsOnce(w: World, steps: seq<Step>, c: Config, id: string)
    requires WorldInv(w) && id !in w.processed
    ensures JobsFrom(w, steps, c, id) == if exists i :: Lands(w, steps, c, id, i) then 1 else 0
  {
    hide WorldInv, Next, Enqueued, Marks, Requested;
    if steps != [] {
      var earlier := steps[..|steps| - 1];
      var last := After(w, earlier, c);
      LandsOnce(w, earlier, c, id);
      LandsStep(w, steps, c, id);
      EnqueuedIff(last, steps[|steps| - 1], c, id);
      MarkedIff(w, earlier, c, id);
      assert forall j | 0 <= j < |earlier| :: steps[j] == earlier[j];
    }
  }

  // Over the life of the system a delivery enqueues its job, once, exactly if the first step that takes it
  // up does not die over it and finds its run waiting for it. Every other delivery is lost.
  lemma DeliveryLandsIff(w: World, steps: seq<Step>, c: Config, id: string)
    requires Reachable(w) && id !in w.processed
    ensures JobsFrom(w, steps, c, id) == 1 <==> exists i :: Lands(w, steps, c, id, i)
    ensures JobsFrom(w, steps, c, id) == 0 <==> !exists i :: Lands(w, steps, c, id, i)
  {
    hide Reachable, WorldInv, JobsFrom, Lands;
    ReachableInv(w);
    LandsOnce(w, steps, c, id);
  }

  // A process that dies between marking a delivery and enqueueing its job loses the delivery: none of its
  // redeliveries ever enqueues that job.
  lemma CrashLosesDelivery(w: World, d: Delivery, steps: seq<Step>, c: Config)
    requires WorldInv(w) && Accepted(d)
    ensures JobsFrom(Next(w, Crashed(d), c), steps, c, d.id) == 0
  {
    hide WorldInv;
    NextSafe(w, Crashed(d), c);
    OneJobPerDelivery(Next(w, Crashed(d), c), steps, c, d.id);
  }

  // ---- Leases ----

  // The leases on a job that some worker lost: those taken over since, and one it left behind. The worker
  // still holds the job named by `held`.
  function LostLeases(q: Queue, id: nat, held: Option<nat>): nat
    requires id in q.jobs
  {
    Reclaims(q.claims, id) + if q.jobs[id].status.InProgress? && held != Some(id) then 1 else 0
  }

  // Each was lost by a death over a job of the same issue.
  ghost predicate LeasesCounted(q: Queue, deaths: multiset<RunKey>, held: Option<nat>) {
    forall id | id in q.jobs :: LostLeases(q, id, held) <= deaths[q.jobs[id].key]
  }

  lemma {:induction false} NoReclaims(claims: seq<Claim>, id: nat)
    requires forall i | 0 <= i < |claims| :: claims[i].id != id
    ensures Reclaims(claims, id) == 0
  {
    if claims != [] { NoReclaims(claims[..|claims| - 1], id); }
  }

  lemma ClaimLeases(q: Queue, deaths: multiset<RunKey>, id: nat, now: int)
    requires id in q.jobs && LeasesCounted(q, deaths, None)
    ensures LeasesCounted(ClaimJob(q, id, now), deaths, Some(id))
  {
    var z := ClaimJob(q, id, now);
    assert z.claims[..|q.claims|] == q.claims;
    forall other | other in z.jobs ensures LostLeases(z, other, Some(id)) <= deaths[z.jobs[other].key] {
      assert LostLeases(q, other, None) <= deaths[q.jobs[other].key];
    }
  }

  lemma EnqueueLeases(w: World, key: RunKey, kind: JobKind, body: string, held: Option<nat>)
    requires WorldInv(w) && LeasesCounted(w.queue, w.deaths, held)
    ensures LeasesCounted(EnqueueJob(w.queue, key, kind, body, w.now), w.deaths, held)
  {
    hide Reclaims, RunInv, JobFits, JobCounted, JobTimed, ClaimsApart;
    var q := EnqueueJob(w.queue, key, kind, body, w.now);
    NoReclaims(q.claims, w.queue.next);
    forall other | other in q.jobs ensures LostLeases(q, other, held) <= w.deaths[q.jobs[other].key] {
      if other in w.queue.jobs { assert LostLeases(w.queue, other, held) <= w.deaths[w.queue.jobs[other].key]; }
    }
  }

  lemma PutLeases(w: World, key: RunKey, st: St, held: Option<nat>)
    requires WorldInv(w) && LeasesCounted(w.queue, w.deaths, held)
    ensures LeasesCounted(Put(w, key, st).queue, w.deaths, held) && Put(w, key, st).deaths == w.deaths
  {
    hide WorldInv, LeasesCounted;
    if st.enq.Some? { EnqueueLeases(w, key, st.enq.value.kind, st.enq.value.body, held); }
  }

  // The job was let go, or the worker died over it.
  predicate Released(w: World, z: World, id: nat)
    requires id in w.queue.jobs && id in z.queue.jobs
  {
    var lost := multiset{w.queue.jobs[id].key};
    z.deaths == w.deaths + lost || (z.deaths == w.deaths && !z.queue.jobs[id].status.InProgress?)
  }

  lemma SettleReleases(w: World, id: nat, key: RunKey, status: Status, f: Faults)
    requires id in w.queue.jobs && w.queue.jobs[id].key == key
    ensures id in Settle(w, id, key, status, f).queue.jobs && Released(w, Settle(w, id, key, status, f), id)
  {
    hide ComputeBackoffMs, Note;
  }

  lemma ReleaseLeases(w: World, z: World, id: nat)
    requires id in w.queue.jobs && LeasesCounted(w.queue, w.deaths, Some(id))
    requires id in z.queue.jobs && z.queue.jobs == w.queue.jobs[id := z.queue.jobs[id]]
    requires z.queue.jobs[id].key == w.queue.jobs[id].key && z.queue.claims == w.queue.claims && Released(w, z, id)
    ensures LeasesCounted(z.queue, z.deaths, None)
  {
    hide Reclaims;
    forall other | other in z.queue.jobs
      ensures LostLeases(z.queue, other, None) <= z.deaths[z.queue.jobs[other].key]
    {
      assert LostLeases(w.queue, other, Some(id)) <= w.deaths[w.queue.jobs[other].key];
    }
  }

  lemma SettleLeases(w: World, id: nat, key: RunKey, status: Status, f: Faults)
    requires id in w.queue.jobs && w.queue.jobs[id].key == key && LeasesCounted(w.queue, w.deaths, Some(id))
    ensures var z := Settle(w, id, key, status, f);
      LeasesCounted(z.queue, z.deaths, None)
  {
    hide Settle, LeasesCounted, Released;
    SettleOnlyJob(w, id, key, status, f);
    SettleReleases(w, id, key, status, f);
    ReleaseLeases(w, Settle(w, id, key, status, f), id);
  }

  lemma DieLeases(w: World, id: nat)
    requires id in w.queue.jobs && LeasesCounted(w.queue, w.deaths, Some(id))
    ensures var z := Die(w, w.queue.jobs[id].key);
      LeasesCounted(z.queue, z.deaths, None)
  {
    hide LeasesCounted, Note;
    assert w.queue.jobs[id := w.queue.jobs[id]] == w.queue.jobs;
    ReleaseLeases(w, Die(w, w.queue.jobs[id].key), id);
  }

  lemma DispatchLeases(w: World, id: nat, a: Answers, f: Faults)
    requires WorldInv(w) && id in w.queue.jobs && w.queue.jobs[id].key in w.runs
    requires LeasesCounted(w.queue, w.deaths, Some(id))
    ensures var z := Dispatch(w, id, a, f);
      LeasesCounted(z.queue, z.deaths, None)
  {
    hide WorldInv, Handle, Settle, Put, LeasesCounted;
    var job := w.queue.jobs[id];
    var r := Handle(job.kind, job.body, Open(w, job.key), a, f);
    PutKeepsJob(w, job.key, r, id);
    PutLeases(w, job.key, r, Some(id));
    SettleLeases(Put(w, job.key, r), id, job.key, r.status, f);
  }

  lemma AdmitKeepsDeaths(w: World, job: Job, c: Config, onSubscription: bool, dies: bool)
    ensures Admit(w, job, c, onSubscription, dies).deaths == w.deaths
  {
    hide BirthBudget, NewRun;
  }

  lemma ProcessLeases(w: World, id: nat, c: Config, onSubscription: bool, a: Answers, f: Faults)
    requires WorldInv(w) && id in w.queue.jobs && Claimable(w.queue.jobs[id], w.now)
    requires LeasesCounted(w.queue, w.deaths, None)
    ensures var z := ProcessJob(w, id, c, onSubscription, a, f);
      LeasesCounted(z.queue, z.deaths, None)
  {
    hide WorldInv, Admit, Settle, Dispatch, Die, LeasesCounted;
    var job := w.queue.jobs[id];
    var dies := f(At(90)) == Some(Died);
    var claimed := w.(queue := ClaimJob(w.queue, id, w.now));
    var admitted := Admit(claimed, job, c, onSubscription, dies);
    ClaimLeases(w.queue, w.deaths, id, w.now);
    ClaimSafe(w, id);
    AdmitSafe(claimed, job, c, onSubscription, dies);
    AdmitKeepsQueue(claimed, job, c, onSubscription, dies);
    AdmitKeepsDeaths(claimed, job, c, onSubscription, dies);
    if f(At(89)) == Some(Died) {
      DieLeases(claimed, id);
    } else if dies {
      DieLeases(admitted, id);
    } else if job.key !in admitted.runs {
      SettleLeases(admitted, id, job.key, Running, f);
    } else {
      DispatchLeases(admitted, id, a, f);
    }
  }

  lemma DeliverLeases(w: World, d: Delivery)
    requires WorldInv(w) && LeasesCounted(w.queue, w.deaths, None)
    ensures var z := Deliver(w, d);
      LeasesCounted(z.queue, z.deaths, None)
  {
    hide WorldInv, LeasesCounted;
    DeliveryEnqueues(w, d);
    if Accepted(d) && d.id !in w.processed && Requested(w, d).Some? {
      var request := Requested(w, d).value;
      EnqueueLeases(w, request.key, request.kind, request.body, None);
    }
  }

  lemma {:induction false} AlwaysLeases(w: World, steps: seq<Step>, c: Config)
    requires WorldInv(w) && LeasesCounted(w.queue, w.deaths, None)
    ensures var z := After(w, steps, c);
      LeasesCounted(z.queue, z.deaths, None)
  {
    hide WorldInv, LeasesCounted, ProcessJob, Deliver;
    if steps != [] {
      var earlier := steps[..|steps| - 1];
      AlwaysSafe(w, earlier, c);
      AlwaysLeases(w, earlier, c);
      var last := After(w, earlier, c);
      match steps[|steps| - 1]
      case Delivered(d) => DeliverLeases(last, d);
      case Worked(onSubscription, a, f) =>
        var id := NextClaimable(last.queue, 0, last.now);
        if id.Some? { ProcessLeases(last, id.value, c, onSubscription, a, f); }
      case Swept(posts) =>
      case Waited(ms) =>
      case Crashed(d) =>
    }
  }

  // No job is attempted more often than the cap allows, but for one attempt more for each time the worker
  // died over a job of its issue, whether or not there was a run yet.
  lemma AttemptsCapped(w: World, id: nat)
    requires Reachable(w) && id in w.queue.jobs
    ensures w.queue.jobs[id].attempts <= 3 + w.deaths[w.queue.jobs[id].key]
  {
    hide After, WorldInv, LeasesCounted, ClaimsApart, Claims, Reclaims;
    ClaimsCounted(w);
    var now, steps, c :| w == After(Initial(now), steps, c);
    InitialInv(now);
    InitialLeases(now);
    AlwaysLeases(Initial(now), steps, c);
    LeaseOf(w, id);
  }

  lemma InitialLeases(now: int)
    ensures LeasesCounted(Initial(now).queue, Initial(now).deaths, None)
  {
  }

  lemma LeaseOf(w: World, id: nat)
    requires id in w.queue.jobs && LeasesCounted(w.queue, w.deaths, None)
    ensures Reclaims(w.queue.claims, id) <= w.deaths[w.queue.jobs[id].key]
  {
    assert LostLeases(w.queue, id, None) <= w.deaths[w.queue.jobs[id].key];
  }
}
