// The sweep over abandoned runs, one run at a time: which runs it closes, and why a reminder never
// buys a run more time.
module Stale {
  import opened Wrappers
  import opened Pipeline
  import opened Steps
  import opened RunInvariant
  import opened Orchestration
  import opened WorldSafety
  import opened MemoryStore

  // A run is closed exactly when it waits at a gate and either the closing comment due after a week did
  // not fail and the process lived to record it, or the reminder due after three days found nobody.
  lemma ClosedIff(r: Run, now: int, post: PostOutcome)
    ensures var s := SweptRun(r, now, post);
      && (s.state != r.state <==>
            IsGate(r.state) &&
            if r.updatedAt < now - CLOSE_AFTER_MS then post.Posted? || post.Missing?
            else r.updatedAt < now - PING_AFTER_MS && r.pingedAt.None? && post.Missing?)
      && (s.state != r.state ==> s.state.Aborted? && s == r.(state := Aborted, updatedAt := now))
  {
    hide Note;
  }

  // A run is reminded exactly once three days have passed, if it never was before; the reminder does
  // not count as activity.
  lemma PingedIff(r: Run, now: int, post: PostOutcome)
    ensures var s := SweptRun(r, now, post);
      && (s.pingedAt != r.pingedAt <==>
            && IsGate(r.state) && r.pingedAt.None? && post.Posted?
            && now - CLOSE_AFTER_MS <= r.updatedAt < now - PING_AFTER_MS)
      && (s.pingedAt != r.pingedAt ==> s.pingedAt == Some(now) && s.updatedAt == r.updatedAt && s.state == r.state)
  {
  }

  // A visit posts a reminder exactly if one is due and none was recorded before, and records it exactly if
  // the process does not die in between.
  lemma ReminderRecordedIff(r: Run, now: int, post: PostOutcome)
    ensures var s := SweptRun(r, now, post);
      var reminded := Watch(s.history).reminders > Watch(r.history).reminders;
      && (reminded <==>
            && IsGate(r.state) && r.pingedAt.None? && (post.Posted? || post.Cut?)
            && now - CLOSE_AFTER_MS <= r.updatedAt < now - PING_AFTER_MS)
      && (reminded ==> Watch(s.history).reminders == Watch(r.history).reminders + 1)
      && (reminded ==> (s.pingedAt.Some? <==> !post.Cut?))
  {
    hide Watch, Observe, Note, Ping;
    RemindersPosted(r, now);
  }

  lemma RemindersPosted(r: Run, now: int)
    ensures var reminded := Note(r, Reminded);
      && Watch(Ping(reminded, now).history).reminders == Watch(r.history).reminders + 1
      && Watch(Note(reminded, SweepDied).history).reminders == Watch(r.history).reminders + 1
      && Watch(Note(r, SweepDied).history).reminders == Watch(r.history).reminders
      && Ping(reminded, now).pingedAt.Some? && Note(reminded, SweepDied).pingedAt == r.pingedAt
  {
    hide Watch, Note;
  }

  // The visits of the sweep to one run that is otherwise left alone.
  datatype Visit = Visit(now: int, post: PostOutcome)

  function Visited(r: Run, visits: seq<Visit>): Run {
    if visits == [] then r
    else
      var last := visits[|visits| - 1];
      SweptRun(Visited(r, visits[..|visits| - 1]), last.now, last.post)
  }

  predicate SameClock(a: Run, b: Run) {
    a.state == b.state && a.updatedAt == b.updatedAt
  }

  // What a visit does to the state and the clock of a run, as long as its issue can be reached.
  lemma SweptClock(r: Run, v: Visit)
    requires !v.post.Missing?
    ensures var s := SweptRun(r, v.now, v.post);
      if IsGate(r.state) && r.updatedAt < v.now - CLOSE_AFTER_MS && v.post.Posted?
      then s.state.Aborted? && s.updatedAt == v.now
      else SameClock(r, s)
  {
    hide Note;
  }

  lemma SameClockKept(a: Run, b: Run, v: Visit)
    requires SameClock(a, b) && !v.post.Missing?
    ensures SameClock(SweptRun(a, v.now, v.post), SweptRun(b, v.now, v.post))
  {
    hide SweptRun;
    SweptClock(a, v);
    SweptClock(b, v);
  }

  // Whether a run was reminded before makes no difference to when it is closed, as long as its issue
  // can be reached.
  lemma {:induction false} PingDelaysNothing(r: Run, pingedAt: int, visits: seq<Visit>)
    requires forall i | 0 <= i < |visits| :: !visits[i].post.Missing?
    ensures SameClock(Visited(r, visits), Visited(r.(pingedAt := Some(pingedAt)), visits))
  {
    if visits != [] {
      var earlier := visits[..|visits| - 1];
      PingDelaysNothing(r, pingedAt, earlier);
      hide SweptRun, SameClock;
      SameClockKept(Visited(r, earlier), Visited(r.(pingedAt := Some(pingedAt)), earlier), visits[|visits| - 1]);
    }
  }

  // The condition is needed, and only before the week is over: an unreachable run that was reminded
  // stays open exactly where one that was not is closed.
  lemma PingHidesUnreachable(r: Run, now: int, pingedAt: int, post: PostOutcome)
    requires IsGate(r.state) && r.pingedAt.None?
    ensures var open := SweptRun(r.(pingedAt := Some(pingedAt)), now, post).state;
      open != SweptRun(r, now, post).state <==>
        post.Missing? && now - CLOSE_AFTER_MS <= r.updatedAt < now - PING_AFTER_MS
  {
  }

  // The first visit after a week that neither fails nor is cut closes the run, whatever sweeps did before.
  lemma {:induction false} WeekCloses(r: Run, visits: seq<Visit>, last: Visit)
    requires IsGate(r.state) && r.updatedAt < last.now - CLOSE_AFTER_MS && (last.post.Posted? || last.post.Missing?)
    ensures Visited(r, visits + [last]).state.Aborted?
  {
    assert (visits + [last])[..|visits|] == visits;
    StillParkedOrClosed(r, visits);
    hide Visited, Note;
  }

  lemma {:induction false} StillParkedOrClosed(r: Run, visits: seq<Visit>)
    requires IsGate(r.state)
    ensures var s := Visited(r, visits);
      s.state.Aborted? || SameClock(r, s)
  {
    hide Note;
    if visits != [] { StillParkedOrClosed(r, visits[..|visits| - 1]); }
  }

  // ---- The loop ----

  const STALE_STATES := {AwaitingClarification, AwaitingPlanApproval, AwaitingImplHelp, AwaitingPrReview}

  // The runs once the first candidates have been visited.
  function SweptSome(runs: map<RunKey, Run>, visited: seq<RunKey>, now: int, posts: RunKey -> PostOutcome): map<RunKey, Run> {
    map k | k in runs :: if k in visited then SweepRun(runs[k], now, posts(k)) else runs[k]
  }

  lemma OneMoreSwept(runs: map<RunKey, Run>, visited: seq<RunKey>, key: RunKey, now: int, posts: RunKey -> PostOutcome)
    requires key in runs && key !in visited
    ensures SweptSome(runs, visited + [key], now, posts)
         == SweptSome(runs, visited, now, posts)[key := SweepRun(runs[key], now, posts(key))]
  {
    hide SweepRun;
  }

  // The sweep comments on this run and dies before it has recorded that.
  predicate DiesOver(r: Run, now: int, post: PostOutcome) {
    Speaks(r, now) && post.Cut?
  }

  // The candidates, oldest first.
  ghost predicate Candidates(w: World, stale: seq<RunKey>) {
    && (forall k :: k in stale <==> k in w.runs && IsStale(w.runs[k], w.now))
    && (forall a, b | 0 <= a < b < |stale| :: stale[a] != stale[b] && IsOlder(w.order, stale[a], stale[b]))
  }

  // The first `n` candidates were visited, and the sweep died over the last of them if over any.
  ghost predicate VisitedTo(w: World, stale: seq<RunKey>, posts: RunKey -> PostOutcome, n: nat)
    requires Candidates(w, stale)
  {
    && n <= |stale|
    && (forall i | 0 <= i < n - 1 :: !DiesOver(w.runs[stale[i]], w.now, posts(stale[i])))
    && (n < |stale| ==> n > 0 && DiesOver(w.runs[stale[n - 1]], w.now, posts(stale[n - 1])))
  }

  lemma OlderOnce(order: seq<RunKey>, a: RunKey, b: RunKey)
    requires forall i, j | 0 <= i < j < |order| :: order[i] != order[j]
    requires IsOlder(order, a, b)
    ensures !IsOlder(order, b, a) && a != b
  {
  }

  // The older of two candidates comes first.
  lemma OlderIsFirst(w: World, stale: seq<RunKey>, a: nat, b: nat)
    requires RunsListed(w) && Candidates(w, stale) && a < |stale| && b < |stale|
    requires IsOlder(w.order, stale[a], stale[b])
    ensures a < b
  {
    hide IsOlder;
    OlderOnce(w.order, stale[a], stale[b]);
  }

  // No run older than a visited candidate had the sweep die over it.
  lemma OlderSpared(w: World, stale: seq<RunKey>, posts: RunKey -> PostOutcome, n: nat, m: nat, older: RunKey)
    requires RunsListed(w) && Candidates(w, stale) && VisitedTo(w, stale, posts, n) && m < n
    requires older in w.runs && IsOlder(w.order, older, stale[m])
    ensures !DiesOver(w.runs[older], w.now, posts(older))
  {
    hide IsOlder, RunsListed;
    if IsStale(w.runs[older], w.now) {
      var at: nat :| at < |stale| && stale[at] == older;
      OlderIsFirst(w, stale, at, m);
    }
  }

  // A candidate is cut off exactly if the sweep died over one before it.
  lemma CutBeforeIff(w: World, stale: seq<RunKey>, posts: RunKey -> PostOutcome, n: nat, m: nat)
    requires RunsListed(w) && Candidates(w, stale) && VisitedTo(w, stale, posts, n) && m < |stale|
    ensures CutBefore(w, posts, stale[m]) <==> m >= n
  {
    hide RunsListed, Speaks;
    if m >= n {
      assert DiesOver(w.runs[stale[n - 1]], w.now, posts(stale[n - 1]));
      assert IsOlder(w.order, stale[n - 1], stale[m]);
    } else {
      forall i, j | 0 <= i < j < |w.order| && w.order[j] == stale[m] && w.order[i] in w.runs
        ensures !DiesOver(w.runs[w.order[i]], w.now, posts(w.order[i]))
      {
        assert IsOlder(w.order, w.order[i], stale[m]);
        OlderSpared(w, stale, posts, n, m, w.order[i]);
      }
    }
  }

  lemma AllSwept(w: World, stale: seq<RunKey>, posts: RunKey -> PostOutcome, n: nat)
    requires RunsListed(w) && Candidates(w, stale) && VisitedTo(w, stale, posts, n)
    ensures SweptSome(w.runs, stale[..n], w.now, posts) == Sweep(w, posts).runs
  {
    hide SweepRun, CutBefore, IsOlder, Note;
    forall k | k in w.runs ensures SweptSome(w.runs, stale[..n], w.now, posts)[k] == Sweep(w, posts).runs[k] {
      if IsStale(w.runs[k], w.now) {
        var m :| 0 <= m < |stale| && stale[m] == k;
        CutBeforeIff(w, stale, posts, n, m);
        FailingLeaves(w.runs[k], w.now);
      }
    }
  }

  lemma FailingLeaves(r: Run, now: int)
    ensures SweepRun(r, now, Failing) == r
  {
  }

  // What one candidate undergoes, given how the comment on it ended.
  method SweepCandidate(store: InMemoryStore, key: RunKey, post: PostOutcome)
    requires key in store.runs
    modifies store`runs
    ensures store.Contents() == old(store.Contents()).(
      runs := old(store.runs)[key := SweepRun(old(store.runs)[key], store.now, post)])
  {
    var run := store.runs[key];
    assert store.runs[key := run] == store.runs;
    if run.updatedAt < store.now - CLOSE_AFTER_MS {
      match post
      case Posted => store.UpdateRunState(key, Aborted);
      case Missing => store.UpdateRunState(key, Aborted);
      case Failing =>
      case Cut => store.Witness(key, SweepDied);
    } else if run.pingedAt.None? {
      match post
      case Posted =>
        store.Witness(key, Reminded);
        store.MarkRunPinged(key, store.now);
      case Missing => store.UpdateRunState(key, Aborted);
      case Failing =>
      case Cut =>
        store.Witness(key, Reminded);
        store.Witness(key, SweepDied);
    }
  }

  // The loop over the candidates amounts to each candidate's own transition, whatever becomes of the
  // comments on the others, unless the process dies over one: then the younger ones are left alone.
  method SweepStaleRuns(store: InMemoryStore, posts: RunKey -> PostOutcome)
    requires RunsListed(store.Contents())
    modifies store`runs
    ensures store.Contents() == Sweep(old(store.Contents()), posts)
  {
    hide SweepRun, Speaks, RunsListed, CutBefore;
    ghost var w := store.Contents();
    var candidates := StaleRuns(store);
    var n := 0;
    var alive := true;
    assert store.runs == SweptSome(w.runs, candidates[..0], w.now, posts);
    while n < |candidates| && alive
      invariant n <= |candidates|
      invariant alive ==> forall i | 0 <= i < n :: !DiesOver(w.runs[candidates[i]], w.now, posts(candidates[i]))
      invariant !alive ==> n > 0 && DiesOver(w.runs[candidates[n - 1]], w.now, posts(candidates[n - 1]))
      invariant forall i | 0 <= i < n - 1 :: !DiesOver(w.runs[candidates[i]], w.now, posts(candidates[i]))
      invariant store.Contents() == w.(runs := store.runs)
      invariant store.runs == SweptSome(w.runs, candidates[..n], w.now, posts)
      decreases |candidates| - n
    {
      var key := candidates[n];
      assert candidates[..n + 1] == candidates[..n] + [key];
      OneMoreSwept(w.runs, candidates[..n], key, w.now, posts);
      alive := !DiesOver(store.runs[key], store.now, posts(key));
      SweepCandidate(store, key, posts(key));
      n := n + 1;
    }
    AllSwept(w, candidates, posts, n);
  }

  method StaleRuns(store: InMemoryStore) returns (candidates: seq<RunKey>)
    requires RunsListed(store.Contents())
    ensures Candidates(store.Contents(), candidates)
  {
    candidates := store.GetStaleRuns(STALE_STATES, store.now - PING_AFTER_MS);
  }
}
