// One execution of one handler against the store: every awaited call of the handler is a method here,
// and its effect on the store is the one the transition system prescribes.
module Execution {
  import opened Wrappers
  import opened Pipeline
  import opened RunInvariant
  import opened Steps
  import opened HandlerSpec
  import opened JobQueue
  import opened Orchestration
  import opened MemoryStore
  import opened Gateway

  class Execution {
    const store: InMemoryStore
    const gateway: LlmGateway
    const key: RunKey
    const f: Faults
    ghost const before: World
    ghost var st: St

    // The store holds what this execution has done so far, and nothing else has changed.
    ghost predicate Valid()
      reads this, store
    {
      && gateway.store == store
      && key in store.runs && store.runs[key] == st.run && store.Contents() == Put(before, key, st) && st.now == store.now
    }

    ghost predicate Active()
      reads this, store
    {
      Valid() && Live(st)
    }

    constructor (store: InMemoryStore, gateway: LlmGateway, key: RunKey, f: Faults)
      requires key in store.runs && gateway.store == store
      ensures Active() && this.store == store && this.key == key && this.f == f
      ensures before == store.Contents() && st == Open(store.Contents(), key)
    {
      this.store := store;
      this.gateway := gateway;
      this.key := key;
      this.f := f;
      before := store.Contents();
      st := Open(store.Contents(), key);
      new;
      assert store.runs[key := store.runs[key]] == store.runs;
    }

    // Writing the run's row twice is writing it once.
    lemma Rewritten(w: World, first: Run, second: Run)
      ensures w.runs[key := first][key := second] == w.runs[key := second]
    {
    }

    // A write of the run's own row.
    method Write(run: Run, ghost next: St)
      requires Active() && next == st.(run := run)
      modifies this`st, store`runs
      ensures Active() && st == next
    {
      Rewritten(before, st.run, run);
      store.PutRun(key, run);
      st := next;
    }

    // ---- Foreign calls ----

    method Await(at: Site) returns (r: Status)
      requires Active()
      modifies this`st
      ensures Valid() && st == Call(old(st), f, at) && r == st.status
    {
      if f(at).Some? {
        r := Threw(f(at).value);
        st := Throw(st, f(at).value);
      } else {
        r := Running;
      }
    }

    // A foreign call inside a try block whose catch block only logs.
    method Attempt(at: Site) returns (r: Status)
      requires Active()
      modifies this`st
      ensures Valid() && st == Tolerate(old(st), f, at) && r == st.status
    {
      if f(at) == Some(Died) {
        r := Threw(Died);
        st := Throw(st, Died);
      } else {
        r := Running;
      }
    }

    method Witness(e: Event)
      requires Active()
      modifies this`st, store`runs
      ensures Active() && st == NoteStep(old(st), e)
    {
      ghost var next := Note(st.run, e);
      Rewritten(before, st.run, next);
      store.Witness(key, e);
      st := st.(run := next);
    }

    method Do(e: Event, at: Site) returns (r: Status)
      requires Active()
      modifies this`st, store`runs
      ensures Valid() && st == Effect(old(st), e, f, at) && r == st.status
    {
      r := Running;
      :- Await(at);
      Witness(e);
      return Running;
    }

    method PostComment(at: Site) returns (r: Status)
      requires Active()
      modifies this`st, store`runs
      ensures Valid() && st == Post(old(st), f, at) && r == st.status
    {
      r := Do(Commented, at);
    }

    // ---- The model, through the gateway ----

    // One agent call: the answer is parsed only once it has been paid for.
    method AskModel(reply: AgentReply, at: Site) returns (r: Status)
      requires Active()
      modifies this`st, store`runs
      ensures Valid() && st == Ask(old(st), reply, f, at) && r == st.status
    {
      var remaining;
      r, remaining := gateway.Call(key, f(at), Some(reply.cost));
      if r.IsFailure() {
        st := st.(status := r);
        return;
      }
      ghost var paid := Pay(st, reply.cost);
      Rewritten(before, st.run, paid.run);
      st := paid;
      if reply.malformed {
        st := Throw(st, Other);
        return Threw(Other);
      }
    }

    method PayFor(cost: nat)
      requires Active() && !Exhausted(st.run)
      modifies this`st, store`runs
      ensures Active() && st == Pay(old(st), cost)
    {
      ghost var paid := Pay(st, cost);
      Rewritten(before, st.run, paid.run);
      var _ := store.RecordLlmCall(key, cost);
      st := paid;
    }

    // The model calls of one task attempt.
    method SpendOn(costs: seq<nat>) returns (r: Status)
      requires Active()
      modifies this`st, store`runs
      ensures Valid() && st == Spend(old(st), costs) && r == st.status
    {
      var i := 0;
      while i < |costs|
        invariant i <= |costs|
        invariant Active() && Spend(st, costs[i..]) == Spend(old(st), costs)
      {
        if store.runs[key].budget - store.runs[key].spent <= 0 {
          st := Throw(st, Budget);
          return Threw(Budget);
        }
        assert costs[i..][0] == costs[i] && costs[i..][1..] == costs[i + 1..];
        PayFor(costs[i]);
        i := i + 1;
      }
      return Running;
    }

    // ---- The store ----

    method SetRunState(s: RunState, at: Site) returns (r: Status)
      requires Active()
      modifies this`st, store`runs
      ensures Valid() && st == SetState(old(st), s, f, at) && r == st.status
    {
      r := Running;
      :- Attempt(at);
      ghost var next := st.run.(state := s, updatedAt := store.now);
      Rewritten(before, st.run, next);
      store.UpdateRunState(key, s);
      st := st.(run := next);
      return Running;
    }

    method SetRunContext(ctx: Context, at: Site) returns (r: Status)
      requires Active()
      modifies this`st, store`runs
      ensures Valid() && st == SetContext(old(st), ctx, f, at) && r == st.status
    {
      r := Running;
      :- Attempt(at);
      ghost var next := st.run.(ctx := ctx, updatedAt := store.now);
      Rewritten(before, st.run, next);
      store.UpdateRunContext(key, ctx);
      st := st.(run := next);
      return Running;
    }

    method AddArtifact(kind: ArtifactKind, at: Site) returns (r: Status)
      requires Active()
      modifies this`st, store`runs
      ensures Valid() && r == st.status
      ensures st == if kind.SpecArtifact? then RecordSpec(old(st), f, at) else RecordPlan(old(st), f, at)
    {
      r := Running;
      :- Attempt(at);
      ghost var next := if kind.SpecArtifact? then st.run.(hasSpec := true) else st.run.(hasPlan := true);
      Rewritten(before, st.run, next);
      store.RecordArtifact(key, kind);
      st := st.(run := next);
      return Running;
    }

    // An execution enqueues one job at most.
    method AddNextJob(kind: JobKind, body: string, at: Site) returns (r: Status)
      requires Active() && st.enq.None?
      modifies this`st, store
      ensures Valid() && st == Enqueue(old(st), kind, body, f, at) && r == st.status
    {
      r := Running;
      :- Attempt(at);
      var _ := store.EnqueueJob(key, kind, body);
      st := st.(enq := Some(NewJob(kind, body)));
      return Running;
    }

    method AddTask(at: Site) returns (r: Status)
      requires Active()
      modifies this`st, store`runs, store`nextTaskId
      ensures Valid() && r == st.status
      ensures var tried := Tolerate(old(st), f, at);
        st == if Live(tried) then RecordTask(tried) else tried
    {
      r := Running;
      :- Attempt(at);
      ghost var next := RecordTask(st);
      Rewritten(before, st.run, next.run);
      store.RecordTask(key);
      st := next;
      return Running;
    }

    method SetTask(i: nat, status: TaskStatus, at: Site) returns (r: Status)
      requires Active() && i < |st.run.tasks|
      modifies this`st, store`runs
      ensures Valid() && st == UpdateTask(old(st), i, status, f, at) && r == st.status
    {
      r := Running;
      :- Attempt(at);
      ghost var next := st.run.(tasks := WithStatus(st.run.tasks, i, status));
      Rewritten(before, st.run, next);
      store.UpdateTask(key, i, status);
      st := st.(run := next);
      return Running;
    }

    // ---- Control flow ----

    // A catch block took the exception: the execution goes on.
    ghost method Catch()
      requires Valid()
      modifies this`st
      ensures Active() && st == old(st).(status := Running)
    {
      st := st.(status := Running);
    }

    // Something escapes, whatever escaped before it.
    ghost method Escape(status: Status)
      requires Valid()
      modifies this`st
      ensures Valid() && st == old(st).(status := status)
    {
      st := st.(status := status);
    }
  }
}
