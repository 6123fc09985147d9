// The worker: claims a job, dispatches it, settles it, and drains the queue between two sleeps.
module Worker {
  import opened Wrappers
  import opened Pipeline
  import opened RunInvariant
  import opened Steps
  import opened HandlerSpec
  import opened Retry
  import opened JobQueue
  import opened Orchestration
  import opened WorldSafety
  import opened Locality
  import opened WorldFlow
  import opened Drain
  import opened MemoryStore
  import opened Gateway
  import opened Execution
  import Handlers

  // Everything that decides how the processing of one job goes.
  datatype Turn = Turn(onSubscription: bool, a: Answers, f: Faults)

  ghost predicate Survivable(t: Turn) {
    NoDeath(t.f) && Breathing(t.a)
  }

  class JobWorker {
    const store: InMemoryStore
    const gateway: LlmGateway
    const config: Config

    // The gateway records into the worker's own store.
    ghost predicate Wired() {
      gateway.store == store
    }

    constructor (store: InMemoryStore, gateway: LlmGateway, config: Config)
      requires gateway.store == store
      ensures this.store == store && this.gateway == gateway && this.config == config && Wired()
    {
      this.store := store;
      this.gateway := gateway;
      this.config := config;
    }

    // The store calls with which a handler opens: find its run, or create it and set its ceiling once.
    method AdmitJob(job: Job, onSubscription: bool, dies: bool)
      modifies store
      ensures store.Contents() == Admit(old(store.Contents()), job, config, onSubscription, dies)
    {
      hide NewRun;
      if job.kind.ResumeImplementation? { return; }
      var created := store.FindOrCreateRun(job.key);
      if created && job.kind.IssueOpened? && !dies {
        var ceiling := if onSubscription && config.subscriptionRunBudget.Some?
        then config.subscriptionRunBudget else config.runBudget;
        FreshRun(store.now);
        if ceiling.Some? { store.SetRunBudget(job.key, ceiling.value); }
        ghost var w := old(store.Contents());
        BudgetIsSet(w, job.key, BirthBudget(config, onSubscription));
        ghost var born := NewRun(store.now, BirthBudget(config, onSubscription));
        assert w.runs[job.key := NewRun(store.now, DEFAULT_RUN_BUDGET_NANO_USD)][job.key := born] == w.runs[job.key := born];
      }
    }

    lemma FreshRun(now: int)
      ensures forall budget, other ::
        NewRun(now, other).(budget := budget, updatedAt := now) == NewRun(now, budget)
        && NewRun(now, other).budget == other
    {
    }

    method NoteDeath(key: RunKey)
      modifies store`runs, store`deaths
      ensures store.Contents() == Die(old(store.Contents()), key)
    {
      store.Witness(key, WorkerDied);
      store.deaths := store.deaths + multiset{key};
    }

    method FailRun(key: RunKey)
      modifies store`runs
      ensures store.Contents() == CloseRun(old(store.Contents()), key)
    {
      store.UpdateRunState(key, Failed);
    }

    // A refusal closes the run cleanly and spends no retry.
    method RefuseJob(id: nat, key: RunKey, f: Faults)
      requires id in store.jobs
      modifies store
      ensures store.Contents() == Refuse(old(store.Contents()), id, key, f)
    {
      hide MarkJobDone, Note;
      FailRun(key);
      if f(At(92)) == Some(Died) {
        NoteDeath(key);
      } else {
        store.MarkJobDone(id);
      }
    }

    // Anything else is retried with backoff; the last attempt closes the run with the job.
    method RetryJob(id: nat, key: RunKey, f: Faults)
      requires id in store.jobs
      modifies store
      ensures store.Contents() == RetryOrBury(old(store.Contents()), id, key, f)
    {
      hide Note, ComputeBackoffMs;
      var status, _ := store.FailOrRetryJob(id, MAX_JOB_ATTEMPTS, JOB_BACKOFF_BASE_MS);
      if status == Dead {
        if f(At(93)) == Some(Died) {
          NoteDeath(key);
        } else if key in store.runs && store.runs[key].state != Failed {
          FailRun(key);
        }
      }
    }

    method SettleJob(id: nat, key: RunKey, status: Status, f: Faults)
      requires id in store.jobs
      modifies store
      ensures store.Contents() == Settle(old(store.Contents()), id, key, status, f)
    {
      hide Finish, Refuse, RetryOrBury, Die;
      if status == Threw(Died) || f(At(91)) == Some(Died) {
        NoteDeath(key);
      } else if !status.Threw? {
        store.MarkJobDone(id);
      } else if IsRefusal(status.err) {
        RefuseJob(id, key, f);
      } else {
        RetryJob(id, key, f);
      }
    }

    // Claims and processes at most one job; false just when nothing was claimable.
    method ProcessNextJob(t: Turn) returns (worked: bool)
      requires Wired()
      modifies store
      ensures store.Contents() ==
        Orchestration.ProcessNextJob(old(store.Contents()), config, t.onSubscription, t.a, t.f)
      ensures worked <==> NextClaimable(old(store.Contents()).queue, 0, old(store.now)).Some?
    {
      hide Admit, Settle, Die, Handle, Put;
      ghost var w := store.Contents();
      var claimed := store.ClaimNextJob();
      if claimed.None? { return false; }
      var id := claimed.value;
      var job := store.jobs[id];
      if t.f(At(89)) == Some(Died) {
        NoteDeath(job.key);
        return true;
      }
      AdmitLooksAtIssue(store.Contents(), job, w.queue.jobs[id], config, t.onSubscription, t.f(At(90)) == Some(Died));
      AdmitJob(job, t.onSubscription, t.f(At(90)) == Some(Died));
      if t.f(At(90)) == Some(Died) {
        NoteDeath(job.key);
        return true;
      }
      var status := Running;
      if job.key in store.runs {
        ghost var admitted := store.Contents();
        var x := new Execution(store, gateway, job.key, t.f);
        status := Handlers.DispatchJob(job.kind, job.body, x, t.a);
        PutKeepsJobs(admitted, job.key, x.st);
      }
      SettleJob(id, job.key, status, t.f);
      return true;
    }

    lemma AdmitLooksAtIssue(w: World, a: Job, b: Job, c: Config, onSubscription: bool, dies: bool)
      requires a.key == b.key && a.kind == b.kind
      ensures Admit(w, a, c, onSubscription, dies) == Admit(w, b, c, onSubscription, dies)
      ensures Admit(w, a, c, onSubscription, dies).queue == w.queue
      ensures Admit(w, a, c, onSubscription, dies).now == w.now
    {
      hide NewRun, BirthBudget;
    }

    lemma PutKeepsJobs(w: World, key: RunKey, st: St)
      ensures forall id | id in w.queue.jobs :: id in Put(w, key, st).queue.jobs
    {
    }

    // Drains everything that is claimable before the worker sleeps: it ends, whatever the handlers
    // meet, as long as the worker lives.
    method DrainQueue(turns: nat -> Turn) returns (processed: nat)
      requires Wired() && WorldInv(store.Contents()) && FlowInv(store.Contents())
      requires forall i :: Survivable(turns(i))
      modifies store
      ensures WorldInv(store.Contents()) && FlowInv(store.Contents())
      ensures NextClaimable(store.Contents().queue, 0, store.now).None?
      ensures processed + Weight(store.Contents()) <= old(Weight(store.Contents()))
    {
      hide WorldInv, FlowInv, Weight;
      processed := 0;
      var worked := true;
      while worked
        invariant WorldInv(store.Contents()) && FlowInv(store.Contents())
        invariant !worked ==> NextClaimable(store.Contents().queue, 0, store.now).None?
        invariant processed + Weight(store.Contents()) <= old(Weight(store.Contents()))
        decreases Weight(store.Contents()), worked
      {
        var t := turns(processed);
        ghost var s := Worked(t.onSubscription, t.a, t.f);
        assert Survivable(turns(processed));
        NextSafe(store.Contents(), s, config);
        NextAllFlow(store.Contents(), s, config);
        NextWeight(store.Contents(), s, config);
        worked := ProcessNextJob(t);
        if worked { processed := processed + 1; }
      }
    }
  }
}
