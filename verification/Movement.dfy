// Which runs can still move. Outside the gates, a run that no live job acts on never changes again; any
// other run does change under some schedule of the worker, and so a closed run may be opened again.
module Movement {
  import opened Wrappers
  import opened Pipeline
  import opened RunInvariant
  import opened Steps
  import opened HandlerSpec
  import opened RunProgress
  import opened Retry
  import opened JobQueue
  import opened Orchestration
  import opened WorldSafety
  import opened Locality
  import opened WorldFlow
  import opened Liveness

  // No schedule whatever changes more of the run than its record of the worker's deaths.
  ghost predicate NeverMoves(w: World, key: RunKey)
    requires key in w.runs
  {
    forall steps, c :: Unmoved(w, After(w, steps, c), key)
  }

  predicate Unmoved(w: World, z: World, key: RunKey)
    requires key in w.runs
  {
    key in z.runs && OnlyHistory(w.runs[key], z.runs[key])
  }

  // ---- Schedules ----

  lemma {:induction false} AfterBoth(w: World, first: seq<Step>, second: seq<Step>, c: Config)
    ensures After(w, first + second, c) == After(After(w, first, c), second, c)
  {
    hide Next;
    if second == [] {
      assert first + second == first;
    } else {
      var earlier := second[..|second| - 1];
      assert (first + second)[..|first + second| - 1] == first + earlier;
      AfterBoth(w, first, earlier, c);
    }
  }

  lemma AfterOne(w: World, s: Step, c: Config)
    ensures After(w, [s], c) == Next(w, s, c)
  {
    hide Next;
    assert [s][..0] == [];
  }

  const SILENT: Answers :=
    Answers(true, AgentReply(0, false), AgentReply(0, false), Spec(0, 1, 1), 0, None, true, false, true, 0,
            i => TddReply([], None, Landed), Actionable)

  // The claim of a job is all that is left when the worker dies right after it.
  lemma Dropped(w: World, id: nat, c: Config, key: RunKey)
    requires id in w.queue.jobs && key in w.runs
    ensures var z := ProcessJob(w, id, c, false, SILENT, DiesAt(At(89)));
      z.now == w.now && z.queue == ClaimJob(w.queue, id, w.now) && Unmoved(w, z, key)
  {
    hide ProcessClaimed, OnlyHistory, Note;
    DeathOnly(w.runs[key]);
  }

  lemma ClaimedIsTaken(q: Queue, id: nat, other: nat, now: int)
    requires id in q.jobs && other in q.jobs && id != other
    ensures var r := ClaimJob(q, id, now);
      r.jobs[other] == q.jobs[other] && r.next == q.next && !Claimable(r.jobs[id], now)
  {
  }

  // Jobs that would be claimed before `id` are claimed and dropped, one after the other.
  lemma {:induction false} PushAside(w: World, id: nat, from: nat, key: RunKey, c: Config) returns (steps: seq<Step>)
    requires WorldInv(w) && key in w.runs && id in w.queue.jobs && Claimable(w.queue.jobs[id], w.now)
    requires from <= id && forall j: nat | j < from && j in w.queue.jobs :: !Claimable(w.queue.jobs[j], w.now)
    ensures var z := After(w, steps, c);
      && WorldInv(z) && Unmoved(w, z, key) && z.now == w.now
      && id in z.queue.jobs && z.queue.jobs[id] == w.queue.jobs[id] && NextClaimable(z.queue, 0, z.now) == Some(id)
    decreases id - from
  {
    hide WorldInv, ProcessJob, OnlyHistory;
    JobIdBelow(w, id);
    DeathOnly(w.runs[key]);
    var first := NextClaimable(w.queue, 0, w.now);
    if first == Some(id) {
      return [];
    }
    var j := first.value;
    var s := Worked(false, SILENT, DiesAt(At(89)));
    var z := Next(w, s, c);
    Dropped(w, j, c, key);
    NextSafe(w, s, c);
    ClaimedIsTaken(w.queue, j, id, w.now);
    var rest := PushAside(z, id, j + 1, key, c);
    AfterBoth(w, [s], rest, c);
    AfterOne(w, s, c);
    OnlyHistoryTransitive(w.runs[key], z.runs[key], After(z, rest, c).runs[key]);
    return [s] + rest;
  }

  lemma LiveIsTimed(w: World, id: nat)
    requires WorldInv(w) && id in w.queue.jobs
    ensures w.queue.jobs[id].status.InProgress? ==>
      w.queue.jobs[id].lockedAt.Some? && w.queue.jobs[id].lockedAt.value <= w.now
  {
    hide RunInv, JobFits, JobCounted, ClaimsApart;
    assert JobTimed(w.queue, id, w.queue.jobs[id], w.now);
  }

  // Any live job can become the next one the worker claims.
  lemma BringUp(w: World, id: nat, key: RunKey, c: Config) returns (steps: seq<Step>)
    requires WorldInv(w) && key in w.runs && id in w.queue.jobs && IsLive(w.queue.jobs[id])
    ensures var z := After(w, steps, c);
      && WorldInv(z) && Unmoved(w, z, key)
      && id in z.queue.jobs && z.queue.jobs[id] == w.queue.jobs[id] && NextClaimable(z.queue, 0, z.now) == Some(id)
  {
    hide WorldInv;
    LiveIsTimed(w, id);
    var due := w.queue.jobs[id].availableAt;
    var wait := DEFAULT_JOB_LEASE_MS + 1 + if due > w.now then due - w.now else 0;
    var s := Waited(wait);
    var z := Next(w, s, c);
    NextSafe(w, s, c);
    var rest := PushAside(z, id, 0, key, c);
    AfterBoth(w, [s], rest, c);
    AfterOne(w, s, c);
    return [s] + rest;
  }

  // ---- The last step ----

  // Every foreign call of the handler is refused for want of a key.
  const KEYLESS: Faults := (s: Site) => if s.At? && s.n < 90 then Some(MissingKey) else None

  lemma KeylessEarly(kind: JobKind, body: string, st: St)
    requires Live(st) && st.enq.None? && Acts(kind, st.run) && (kind.ProduceSpec? || kind.Clarify?)
    ensures var r := Handle(kind, body, st, SILENT, KEYLESS);
      r.status == Threw(MissingKey) && r.enq.None?
  {
    hide Note, Charge, AnnounceSpec;
  }

  lemma KeylessPlan(body: string, st: St)
    requires Live(st) && st.enq.None? && Acts(ProducePlan, st.run)
    ensures var r := Handle(ProducePlan, body, st, SILENT, KEYLESS);
      r.status == Threw(MissingKey) && r.enq.None?
  {
    hide Note, Charge;
  }

  lemma KeylessLate(kind: JobKind, body: string, st: St)
    requires Live(st) && st.enq.None? && Acts(kind, st.run) && (kind.Implement? || kind.Review?)
    ensures var r := Handle(kind, body, st, SILENT, KEYLESS);
      r.status == Threw(MissingKey) && r.enq.None?
  {
    hide Note, Charge, ImplementBody, DoneCount;
  }

  lemma KeylessThrows(kind: JobKind, body: string, st: St)
    requires Live(st) && st.enq.None? && Acts(kind, st.run) && !IsGate(st.run.state) && !st.run.state.Received?
    ensures var r := Handle(kind, body, st, SILENT, KEYLESS);
      r.status == Threw(MissingKey) && r.enq.None?
  {
    hide Handle;
    match kind
    case ProduceSpec => KeylessEarly(kind, body, st);
    case Clarify => KeylessEarly(kind, body, st);
    case ProducePlan => KeylessPlan(body, st);
    case Implement => KeylessLate(kind, body, st);
    case Review => KeylessLate(kind, body, st);
    case _ =>
  }

  // The refusal closes the run.
  lemma RefusedNext(w: World, id: nat, c: Config)
    requires id in w.queue.jobs && NextClaimable(w.queue, 0, w.now) == Some(id) && w.queue.jobs[id].key in w.runs
    requires var job := w.queue.jobs[id];
      var r := w.runs[job.key];
      Acts(job.kind, r) && !IsGate(r.state) && !r.state.Received?
    ensures var z := Next(w, Worked(false, SILENT, KEYLESS), c);
      var key := w.queue.jobs[id].key;
      key in z.runs && z.runs[key].state.Failed?
  {
    hide Handle, NextClaimable, Acts;
    var job := w.queue.jobs[id];
    var claimed := w.(queue := ClaimJob(w.queue, id, w.now));
    ExistingAdmitted(claimed, job, c, false, false);
    KeylessThrows(job.kind, job.body, Open(claimed, job.key));
  }

  lemma StartsSpec(body: string, st: St)
    requires Live(st) && st.enq.None? && !st.run.hasSpec
    ensures var r := Handle(ProduceSpec, body, st, SILENT, DiesAt(At(1)));
      r.status == Threw(Died) && r.enq.None? && r.run.state.Specifying?
  {
    hide Note;
  }

  // Specifying starts over on whatever state it finds.
  lemma ReopenedNext(w: World, id: nat, c: Config)
    requires id in w.queue.jobs && NextClaimable(w.queue, 0, w.now) == Some(id) && w.queue.jobs[id].key in w.runs
    requires w.queue.jobs[id].kind.ProduceSpec? && !w.runs[w.queue.jobs[id].key].hasSpec
    ensures var z := Next(w, Worked(false, SILENT, DiesAt(At(1))), c);
      var key := w.queue.jobs[id].key;
      key in z.runs && z.runs[key].state.Specifying?
  {
    hide Handle, NextClaimable;
    var job := w.queue.jobs[id];
    var claimed := w.(queue := ClaimJob(w.queue, id, w.now));
    ExistingAdmitted(claimed, job, c, false, false);
    StartsSpec(job.body, Open(claimed, job.key));
  }

  // ---- Which runs move ----

  // A run that a live job would still act on is moved by some schedule.
  lemma ActedOnMoves(w: World, id: nat, c: Config) returns (steps: seq<Step>)
    requires WorldInv(w) && id in w.queue.jobs && IsLive(w.queue.jobs[id]) && w.queue.jobs[id].key in w.runs
    requires var job := w.queue.jobs[id];
      var r := w.runs[job.key];
      Acts(job.kind, r) && !IsGate(r.state) && !r.state.Received?
    ensures var key := w.queue.jobs[id].key;
      var z := After(w, steps, c);
      && key in z.runs && z.runs[key].state != w.runs[key].state
      && (IsTerminal(w.runs[key].state) ==> z.runs[key].state.Specifying?)
  {
    hide WorldInv, NextClaimable, Next, Acts;
    var job := w.queue.jobs[id];
    var up := BringUp(w, id, job.key, c);
    var z := After(w, up, c);
    ActsSame(job.kind, w.runs[job.key], z.runs[job.key]);
    RunOk(w, job.key);
    var last := if IsTerminal(w.runs[job.key].state) then DiesAt(At(1)) else KEYLESS;
    if IsTerminal(w.runs[job.key].state) {
      OnlySpecifyingActs(job.kind, w.runs[job.key]);
      ReopenedNext(z, id, c);
    } else {
      RefusedNext(z, id, c);
    }
    AfterBoth(w, up, [Worked(false, SILENT, last)], c);
    AfterOne(z, Worked(false, SILENT, last), c);
    return up + [Worked(false, SILENT, last)];
  }

  lemma OnlySpecifyingActs(kind: JobKind, r: Run)
    requires IsTerminal(r.state) && Acts(kind, r)
    ensures kind.ProduceSpec? && !r.hasSpec
  {
  }

  // Outside the gates, the runs that never move again are exactly the frozen ones.
  lemma NeverMovesIff(w: World, key: RunKey)
    requires Reachable(w) && key in w.runs && !IsGate(w.runs[key].state) && !w.runs[key].state.Received?
    ensures NeverMoves(w, key) <==> Frozen(w, key)
  {
    hide WorldInv, Reachable, Acts, After, IsLive;
    ReachableInv(w);
    if Frozen(w, key) {
      forall steps, c ensures Unmoved(w, After(w, steps, c), key) { FrozenForever(w, steps, c, key); }
    } else {
      var id :| id in w.queue.jobs && IsLive(w.queue.jobs[id]) && w.queue.jobs[id].key == key
        && Acts(w.queue.jobs[id].kind, w.runs[key]);
      var c := Config(None, None);
      var steps := ActedOnMoves(w, id, c);
      assert !Unmoved(w, After(w, steps, c), key);
    }
  }

  lemma ClosedDriver(r: Run)
    requires IsTerminal(r.state)
    ensures Driver(r) == if r.hasSpec then None else Some(ProduceSpec)
  {
  }

  // A closed run stays closed for good, wherever the worker dies, exactly if it has its spec or no job
  // to draft it is left: specifying is the one handler that does not look at the state it finds.
  lemma ClosedForeverIff(w: World, key: RunKey)
    requires Reachable(w) && key in w.runs && IsTerminal(w.runs[key].state)
    ensures NeverMoves(w, key) <==> w.runs[key].hasSpec || !Awaited(w.queue, key, ProduceSpec)
  {
    hide WorldInv, Reachable, NeverMoves, Frozen, Driver, Awaited;
    ReachableInv(w);
    NeverMovesIff(w, key);
    FrozenIff(w, key);
    ClosedDriver(w.runs[key]);
  }

  // So a closed run is reopened only after a death of the worker over it.
  lemma ClosedWithoutDeath(w: World, key: RunKey)
    requires Reachable(w) && key in w.runs && IsTerminal(w.runs[key].state) && !Hurt(w, key)
    ensures NeverMoves(w, key)
  {
    hide WorldInv, Reachable, NeverMoves, Hurt, DraftedOnce, IsServed, Unharmed;
    ReachableFlows(w, key);
    ClosedForeverIff(w, key);
    ClosedNotDrafted(w, key);
  }

  lemma ClosedNotDrafted(w: World, key: RunKey)
    requires key in w.runs && IsTerminal(w.runs[key].state) && Drafted(w, key)
    ensures w.runs[key].hasSpec || !Awaited(w.queue, key, ProduceSpec)
  {
    forall id | id in w.queue.jobs && Serves(w.queue.jobs[id], key, ProduceSpec) ensures w.runs[key].hasSpec {
      assert Drafts(w.queue.jobs[id], key);
    }
  }

  // Otherwise some schedule of the worker opens it again.
  lemma DeathReopensClosedRun(w: World, key: RunKey)
    requires Reachable(w) && key in w.runs && IsTerminal(w.runs[key].state)
    requires !w.runs[key].hasSpec && Awaited(w.queue, key, ProduceSpec)
    ensures exists steps, c :: key in After(w, steps, c).runs && After(w, steps, c).runs[key].state.Specifying?
  {
    hide WorldInv, Reachable, After;
    ReachableInv(w);
    var id :| id in w.queue.jobs && Serves(w.queue.jobs[id], key, ProduceSpec);
    var steps := ActedOnMoves(w, id, Config(None, None));
  }
}
