// A step of the worker is local: it touches the run and the jobs of one issue only.
module Locality {
  import opened Wrappers
  import opened Pipeline
  import opened RunInvariant
  import opened Steps
  import opened HandlerSpec
  import opened RunSafety
  import opened RunProgress
  import opened Retry
  import opened JobQueue
  import opened Orchestration
  import opened WorldSafety

  // Nothing of any other run changed, and no job of one was touched, claimed or added.
  ghost predicate Local(w: World, z: World, key: RunKey) {
    && (forall k | k != key :: k in z.runs <==> k in w.runs)
    && (forall k | k in w.runs && k != key :: z.runs[k] == w.runs[k])
    && SameJobsBut(w.queue.jobs, z.queue.jobs, key)
    && w.queue.claims <= z.queue.claims
    && (forall i | |w.queue.claims| <= i < |z.queue.claims| ::
          z.queue.claims[i].id in z.queue.jobs && z.queue.jobs[z.queue.claims[i].id].key == key)
  }

  ghost predicate SameJobsBut(before: map<nat, Job>, after: map<nat, Job>, key: RunKey) {
    && (forall id | id in before && before[id].key != key :: id in after && after[id] == before[id])
    && (forall id | id in after && after[id].key != key :: id in before && after[id] == before[id])
  }

  lemma DieKeepsQueue(w: World, key: RunKey)
    ensures var z := Die(w, key);
      z.queue == w.queue && z.processed == w.processed && z.now == w.now
  {
    hide Note;
  }

  lemma SettleOnlyJob(w: World, id: nat, key: RunKey, status: Status, f: Faults)
    requires id in w.queue.jobs
    ensures var z := Settle(w, id, key, status, f);
      && z.processed == w.processed && z.queue.claims == w.queue.claims
      && id in z.queue.jobs && z.queue.jobs == w.queue.jobs[id := z.queue.jobs[id]]
      && var before, after := w.queue.jobs[id], z.queue.jobs[id];
         after.key == before.key && after.kind == before.kind && after.body == before.body
         && after.attempts == before.attempts
  {
    hide ComputeBackoffMs, Die;
    assert w.queue.jobs[id := w.queue.jobs[id]] == w.queue.jobs;
    DieKeepsQueue(w, key);
    DieKeepsQueue(CloseRun(w, key), key);
    DieKeepsQueue(w.(queue := FailOrRetryJob(w.queue, id, w.now)), key);
  }

  lemma SettleOnlyRun(w: World, id: nat, key: RunKey, status: Status, f: Faults)
    requires id in w.queue.jobs
    ensures var z := Settle(w, id, key, status, f);
      && (forall k | k != key :: k in z.runs <==> k in w.runs)
      && (forall k | k in w.runs && k != key :: z.runs[k] == w.runs[k])
  {
    hide FailOrRetryJob, MarkJobDone, Note;
  }

  lemma SettleLocal(w: World, id: nat, key: RunKey, status: Status, f: Faults)
    requires id in w.queue.jobs && w.queue.jobs[id].key == key
    ensures Local(w, Settle(w, id, key, status, f), key)
  {
    hide Settle;
    SettleOnlyJob(w, id, key, status, f);
    SettleOnlyRun(w, id, key, status, f);
  }

  lemma PutLocal(w: World, key: RunKey, st: St)
    requires WorldInv(w)
    ensures Local(w, Put(w, key, st), key)
  {
    hide RunInv, JobFits, JobCounted, JobTimed, ClaimsApart;
  }

  // No job disappears, and none changes hands.
  predicate KeysKept(before: map<nat, Job>, after: map<nat, Job>) {
    forall id | id in before :: id in after && after[id].key == before[id].key
  }

  lemma PutKeepsKeys(w: World, key: RunKey, st: St)
    requires WorldInv(w)
    ensures KeysKept(w.queue.jobs, Put(w, key, st).queue.jobs)
  {
    hide RunInv, JobFits, JobCounted, JobTimed, ClaimsApart;
  }

  lemma DispatchKeepsKeys(w: World, id: nat, a: Answers, f: Faults)
    requires WorldInv(w) && id in w.queue.jobs && w.queue.jobs[id].key in w.runs
    ensures KeysKept(w.queue.jobs, Dispatch(w, id, a, f).queue.jobs)
  {
    hide WorldInv, Handle, Settle, Put;
    var job := w.queue.jobs[id];
    var r := Handle(job.kind, job.body, Open(w, job.key), a, f);
    PutKeepsKeys(w, job.key, r);
    SettleOnlyJob(Put(w, job.key, r), id, job.key, r.status, f);
  }

  lemma DispatchLocal(w: World, id: nat, a: Answers, f: Faults)
    requires WorldInv(w) && id in w.queue.jobs && w.queue.jobs[id].key in w.runs
    ensures Local(w, Dispatch(w, id, a, f), w.queue.jobs[id].key)
  {
    hide WorldInv, Handle, Settle, Put, Local;
    var job := w.queue.jobs[id];
    var r := Handle(job.kind, job.body, Open(w, job.key), a, f);
    PutKeepsJob(w, job.key, r, id);
    PutLocal(w, job.key, r);
    var put := Put(w, job.key, r);
    SettleLocal(put, id, job.key, r.status, f);
    SettleOnlyJob(put, id, job.key, r.status, f);
    LocalTransitive(w, put, Dispatch(w, id, a, f), job.key);
  }

  lemma LocalTransitive(a: World, b: World, c: World, key: RunKey)
    requires Local(a, b, key) && Local(b, c, key)
    requires forall id | id in b.queue.jobs && b.queue.jobs[id].key == key ::
      id in c.queue.jobs && c.queue.jobs[id].key == key
    ensures Local(a, c, key)
  {
  }

  lemma ClaimLocal(w: World, id: nat)
    requires id in w.queue.jobs
    ensures Local(w, w.(queue := ClaimJob(w.queue, id, w.now)), w.queue.jobs[id].key)
  {
  }

  lemma ClaimDiesLocal(w: World, id: nat)
    requires id in w.queue.jobs
    ensures Local(w, Die(w.(queue := ClaimJob(w.queue, id, w.now)), w.queue.jobs[id].key), w.queue.jobs[id].key)
  {
    hide Note;
  }

  // Only runs changed, and of those only this one.
  lemma RunsLocal(w: World, z: World, key: RunKey)
    requires z.queue == w.queue
    requires forall k | k != key :: (k in z.runs <==> k in w.runs) && (k in w.runs ==> z.runs[k] == w.runs[k])
    ensures Local(w, z, key)
  {
  }

  lemma AdmitOnlyRun(w: World, job: Job, c: Config, onSubscription: bool, dies: bool)
    ensures var r := Admit(w, job, c, onSubscription, dies);
      && r.queue == w.queue && Die(r, job.key).queue == w.queue
      && (forall k | k != job.key :: (k in r.runs <==> k in w.runs) && (k in w.runs ==> r.runs[k] == w.runs[k]))
      && (forall k | k != job.key ::
            (k in Die(r, job.key).runs <==> k in w.runs) && (k in w.runs ==> Die(r, job.key).runs[k] == w.runs[k]))
  {
    hide BirthBudget, NewRun, Note;
  }

  lemma AdmitLocal(w: World, id: nat, job: Job, c: Config, onSubscription: bool, dies: bool)
    requires id in w.queue.jobs && job == w.queue.jobs[id]
    ensures var r := Admit(w.(queue := ClaimJob(w.queue, id, w.now)), job, c, onSubscription, dies);
      Local(w, r, job.key) && r.queue == ClaimJob(w.queue, id, w.now) && Local(w, Die(r, job.key), job.key)
  {
    hide Admit, Die, Local;
    var claimed := w.(queue := ClaimJob(w.queue, id, w.now));
    ClaimLocal(w, id);
    AdmitOnlyRun(claimed, job, c, onSubscription, dies);
    var r := Admit(claimed, job, c, onSubscription, dies);
    RunsLocal(claimed, r, job.key);
    RunsLocal(claimed, Die(r, job.key), job.key);
    LocalTransitive(w, claimed, r, job.key);
    LocalTransitive(w, claimed, Die(r, job.key), job.key);
  }

  // The worker leaves every run but that of the job alone.
  lemma ProcessJobLocal(w: World, id: nat, c: Config, onSubscription: bool, a: Answers, f: Faults)
    requires WorldInv(w) && id in w.queue.jobs && Claimable(w.queue.jobs[id], w.now)
    ensures Local(w, ProcessJob(w, id, c, onSubscription, a, f), w.queue.jobs[id].key)
  {
    hide WorldInv, Admit, Settle, Dispatch, Die, Local;
    var job := w.queue.jobs[id];
    var dies := f(At(90)) == Some(Died);
    var claimed := w.(queue := ClaimJob(w.queue, id, w.now));
    AdmitLocal(w, id, job, c, onSubscription, dies);
    var admitted := Admit(claimed, job, c, onSubscription, dies);
    if f(At(89)) == Some(Died) {
      ClaimDiesLocal(w, id);
    } else if !dies {
      ClaimSafe(w, id);
      AdmitSafe(claimed, job, c, onSubscription, dies);
      if job.key !in admitted.runs {
        SettleLocal(admitted, id, job.key, Running, f);
        SettleOnlyJob(admitted, id, job.key, Running, f);
      } else {
        DispatchLocal(admitted, id, a, f);
        DispatchKeepsKeys(admitted, id, a, f);
      }
      LocalTransitive(w, admitted, ProcessJob(w, id, c, onSubscription, a, f), job.key);
    }
  }

  lemma ExistingAdmitted(w: World, job: Job, c: Config, onSubscription: bool, dies: bool)
    requires job.key in w.runs
    ensures Admit(w, job, c, onSubscription, dies) == w
  {
  }
}
