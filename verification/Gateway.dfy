// The one chokepoint of all model calls: the budget is checked before, and the cost recorded after.
module Gateway {
  import opened Wrappers
  import opened Pipeline
  import opened RunInvariant
  import opened Steps
  import opened Orchestration
  import opened MemoryStore

  class LlmGateway {
    const store: InMemoryStore

    constructor (store: InMemoryStore)
      ensures this.store == store
    {
      this.store := store;
    }

    // `thrown` is what the provider throws, if anything; `cost` is the price of what it answers, if its
    // model has one. A call that is refused or throws is not recorded, not even an answered one without a
    // price; one that is recorded keeps the run's books.
    method Call(key: RunKey, thrown: Option<Fault>, cost: Option<nat>) returns (r: Status, remaining: int)
      modifies store`runs
      ensures key !in old(store.runs) ==> r == Threw(Other)
      ensures key in old(store.runs) ==>
        var left := old(store.runs)[key].budget - old(store.runs)[key].spent;
        r == if left <= 0 then Threw(Budget)
             else if thrown.Some? then Threw(thrown.value)
             else if cost.None? then Threw(Other)
             else Running
      ensures !r.Running? ==> store.Contents() == old(store.Contents())
      ensures r.Running? ==>
        && key in store.runs && cost.Some?
        && store.Contents() == old(store.Contents()).(
             runs := old(store.runs)[key := Charge(old(store.runs)[key], cost.value, store.now)])
        && remaining == store.runs[key].budget - store.runs[key].spent
        && (MoneyAdds(old(store.runs)[key]) ==> MoneyAdds(store.runs[key]))
    {
      if key !in store.runs { return Threw(Other), 0; }
      var run := store.runs[key];
      remaining := run.budget - run.spent;
      if remaining <= 0 { return Threw(Budget), remaining; }
      if thrown.Some? { return Threw(thrown.value), remaining; }
      if cost.None? { return Threw(Other), remaining; }
      var left := store.RecordLlmCall(key, cost.value);
      return Running, left.value;
    }
  }
}
