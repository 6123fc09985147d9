// The test-first loop over one task: tests seen to fail, then code that makes the suite pass, then a
// refactor that is kept only if the suite still passes. The model and the sandbox may answer anything.
module Tdd {
  import opened Wrappers
  import opened Sandbox

  // One answer of an agent: the files it wants written, or an exception.
  datatype Reply = Files(files: seq<FileEdit>) | Raises(budget: bool)

  datatype Stage = TestStage | ImplStage

  datatype Outcome = Done | AlreadySatisfied | Escalated(stage: Stage)

  datatype TddResult = Ended(outcome: Outcome, changedPaths: seq<Path>) | Threw

  // How an attempt went, for the statement of what it promises: how many replies of the author and of the
  // implementer it took, what they had written by then, the suite runs that showed red and green, the sandbox
  // call with which the refactor began, how that ended, which paths it wrote without changing them for good,
  // and whether a sandbox call broke once it had begun to write.
  datatype Trace = Trace(
    drafts: nat,
    authored: seq<FileEdit>,
    tests: seq<FileEdit>,
    tries: nat,
    implemented: seq<FileEdit>,
    redAt: nat,
    greenAt: nat,
    refactorAt: Option<nat>,
    ending: Ending,
    unkept: set<Path>,
    late: bool)

  ghost predicate NoneOf(runs: seq<TestRun>, from: nat, to: nat, status: TestStatus) {
    from <= to <= |runs| && forall i | from <= i < to :: runs[i].status != status
  }

  lemma NoneOfMore(runs: seq<TestRun>, from: nat, run: TestRun, status: TestStatus)
    requires NoneOf(runs, from, |runs|, status)
    ensures NoneOf(runs + [run], from, |runs|, status)
    ensures run.status != status ==> NoneOf(runs + [run], from, |runs| + 1, status)
  {
  }

  lemma NoneOfNothing(runs: seq<TestRun>)
    ensures forall status :: NoneOf(runs, |runs|, |runs|, status)
  {
  }

  // ---- What the replies amount to ----

  function FilesOf(reply: Reply): seq<FileEdit> {
    if reply.Files? then reply.files else []
  }

  // The files of the first `n` replies, in order.
  function Answered(replies: nat -> Reply, n: nat): seq<FileEdit> {
    if n == 0 then [] else Answered(replies, n - 1) + FilesOf(replies(n - 1))
  }

  lemma AnsweredNext(replies: nat -> Reply, n: nat)
    ensures Answered(replies, n + 1) == Answered(replies, n) + FilesOf(replies(n))
    ensures FilesOf(replies(n)) == [] ==> Answered(replies, n + 1) == Answered(replies, n)
    ensures Answered(replies, 0) == []
  {
  }

  ghost predicate Raised(replies: nat -> Reply, n: nat) {
    exists k: nat | k < n :: replies(k).Raises?
  }

  lemma RaisedNext(replies: nat -> Reply, n: nat)
    ensures Raised(replies, n + 1) <==> Raised(replies, n) || replies(n).Raises?
    ensures !Raised(replies, 0)
  {
    if replies(n).Raises? { assert Raised(replies, n + 1); }
  }

  // Some call from `first` on broke before call `to`.
  ghost predicate Broke(health: nat -> CallOutcome, first: nat, to: nat) {
    exists i: nat | first <= i < to :: health(i).Breaks?
  }

  lemma BrokeNext(health: nat -> CallOutcome, first: nat, to: nat)
    requires first <= to
    ensures Broke(health, first, to + 1) <==> Broke(health, first, to) || health(to).Breaks?
    ensures !Broke(health, first, first)
  {
    if health(to).Breaks? { assert Broke(health, first, to + 1); }
  }

  // What had been written when the work on reply `n - 1` broke off: that reply whole, or as far as the last
  // call got with it.
  predicate BrokenOff(files: seq<FileEdit>, replies: nat -> Reply, n: nat, last: CallOutcome) {
    || files == Answered(replies, n)
    || (n > 0 && files == Answered(replies, n - 1) + WrittenBy(FilesOf(replies(n - 1)), last))
  }

  lemma BrokenOffPaths(files: seq<FileEdit>, replies: nat -> Reply, n: nat, last: CallOutcome)
    requires BrokenOff(files, replies, n, last)
    ensures Paths(files) <= Paths(Answered(replies, n))
  {
    if n > 0 {
      var rest, reply := Answered(replies, n - 1), FilesOf(replies(n - 1));
      WrittenByPartly(reply, last);
      PartlyWrittenPaths(reply, WrittenBy(reply, last));
      PathsAppend(rest, reply);
      PathsAppend(rest, WrittenBy(reply, last));
    }
  }

  lemma {:induction false} AnsweredLater(replies: nat -> Reply, n: nat, m: nat)
    requires n <= m
    ensures Paths(Answered(replies, n)) <= Paths(Answered(replies, m))
    decreases m
  {
    if n < m {
      AnsweredLater(replies, n, m - 1);
      PathsAppend(Answered(replies, m - 1), FilesOf(replies(m - 1)));
    }
  }

  // ---- The author ----

  datatype Authored = Red(tests: seq<FileEdit>) | NotRed(suitePassed: bool) | AuthorThrew

  predicate WroteTests(author: nat -> Reply, n: nat) {
    exists k: nat | k < n :: author(k).Files? && author(k).files != []
  }

  // How many of the first `n` replies hold files. Only those are written, and the suite run on them.
  function Drafts(replies: nat -> Reply, n: nat): (d: nat)
    ensures d <= n
  {
    if n == 0 then 0 else Drafts(replies, n - 1) + if FilesOf(replies(n - 1)) == [] then 0 else 1
  }

  // After each reply that holds files the suite was run on everything written by then, and not otherwise.
  ghost predicate DraftRuns(replies: nat -> Reply, n: nat, before: Tree, from: nat, runs: seq<TestRun>) {
    && |runs| == from + Drafts(replies, n)
    && forall k: nat | k < n && FilesOf(replies(k)) != [] ::
         from + Drafts(replies, k) < |runs| && runs[from + Drafts(replies, k)].tree == Overlay(before, Answered(replies, k + 1))
  }

  lemma DraftsNext(replies: nat -> Reply, n: nat)
    ensures Drafts(replies, n + 1) == Drafts(replies, n) + if FilesOf(replies(n)) == [] then 0 else 1
  {
  }

  lemma DraftRunsMore(replies: nat -> Reply, n: nat, before: Tree, from: nat, runs: seq<TestRun>, run: TestRun)
    requires DraftRuns(replies, n, before, from, runs) && FilesOf(replies(n)) != []
    requires run.tree == Overlay(before, Answered(replies, n + 1))
    ensures DraftRuns(replies, n + 1, before, from, runs + [run])
  {
    hide Overlay, Answered, FilesOf, Drafts;
    DraftsNext(replies, n);
    var more := runs + [run];
    forall k: nat | k < n + 1 && FilesOf(replies(k)) != []
      ensures from + Drafts(replies, k) < |more| && more[from + Drafts(replies, k)].tree == Overlay(before, Answered(replies, k + 1))
    {
      if k < n { assert more[from + Drafts(replies, k)] == runs[from + Drafts(replies, k)]; }
    }
  }

  lemma EmptyDraft(replies: nat -> Reply, n: nat, before: Tree, from: nat, runs: seq<TestRun>)
    requires DraftRuns(replies, n, before, from, runs) && FilesOf(replies(n)) == []
    ensures DraftRuns(replies, n + 1, before, from, runs)
  {
    hide Overlay, Answered, FilesOf, Drafts;
    DraftsNext(replies, n);
  }

  // Between two replies, with nothing gone wrong and no red run: what has been written, and what was run.
  ghost predicate Drafted(author: nat -> Reply, n: nat, before: Tree, tree: Tree, runs0: seq<TestRun>, runs: seq<TestRun>,
                          earlier: seq<FileEdit>) {
    && runs0 <= runs && |runs| <= |runs0| + n
    && earlier == Answered(author, n) && tree == Overlay(before, earlier)
    && NoneOf(runs, |runs0|, |runs|, Failed)
    && DraftRuns(author, n, before, |runs0|, runs)
  }

  lemma NothingDrafted(author: nat -> Reply, tree: Tree, runs: seq<TestRun>)
    ensures Drafted(author, 0, tree, tree, runs, runs, []) && !WroteTests(author, 0)
  {
  }

  // A reply without files, or an exception.
  lemma DraftedNothing(author: nat -> Reply, n: nat, before: Tree, tree: Tree, runs0: seq<TestRun>, runs: seq<TestRun>,
                       earlier: seq<FileEdit>)
    requires Drafted(author, n, before, tree, runs0, runs, earlier) && FilesOf(author(n)) == []
    ensures Drafted(author, n + 1, before, tree, runs0, runs, earlier)
  {
    hide DraftRuns, Overlay, Answered, FilesOf, NoneOf;
    AnsweredNext(author, n);
    EmptyDraft(author, n, before, |runs0|, runs);
  }

  // What its files make of the tree, whole or broken off.
  lemma DraftedFiles(author: nat -> Reply, n: nat, before: Tree, tree: Tree, runs0: seq<TestRun>, runs: seq<TestRun>,
                     earlier: seq<FileEdit>, last: CallOutcome)
    requires Drafted(author, n, before, tree, runs0, runs, earlier)
    ensures var files := FilesOf(author(n));
      && Overlay(tree, files) == Overlay(before, earlier + files) && earlier + files == Answered(author, n + 1)
      && Overlay(tree, WrittenBy(files, last)) == Overlay(before, earlier + WrittenBy(files, last))
      && BrokenOff(earlier, author, n, last)
      && BrokenOff(earlier + WrittenBy(files, last), author, n + 1, last) && BrokenOff(earlier + files, author, n + 1, last)
  {
    hide DraftRuns, Overlay, WrittenBy, Answered, FilesOf, NoneOf;
    AnsweredNext(author, n);
    OverlayAppend(before, earlier, FilesOf(author(n)));
    OverlayAppend(before, earlier, WrittenBy(FilesOf(author(n)), last));
  }

  // And the run on them.
  lemma DraftedRun(author: nat -> Reply, n: nat, before: Tree, tree: Tree, runs0: seq<TestRun>, runs: seq<TestRun>,
                   earlier: seq<FileEdit>, run: TestRun)
    requires Drafted(author, n, before, tree, runs0, runs, earlier)
    requires FilesOf(author(n)) != [] && run.tree == Overlay(tree, FilesOf(author(n)))
    ensures var more := runs + [run];
      && runs0 <= more && |more| <= |runs0| + n + 1
      && DraftRuns(author, n + 1, before, |runs0|, more)
      && NoneOf(more, |runs0|, |more| - 1, Failed)
      && (run.status != Failed ==> Drafted(author, n + 1, before, run.tree, runs0, more, earlier + FilesOf(author(n))))
  {
    hide DraftRuns, Overlay, Answered, FilesOf, NoneOf, WrittenBy, BrokenOff;
    DraftedFiles(author, n, before, tree, runs0, runs, earlier, Works);
    DraftRunsMore(author, n, before, |runs0|, runs, run);
    NoneOfMore(runs, |runs0|, run, Failed);
  }

  lemma DraftedFacts(author: nat -> Reply, n: nat, before: Tree, tree: Tree, runs0: seq<TestRun>, runs: seq<TestRun>,
                     earlier: seq<FileEdit>)
    requires Drafted(author, n, before, tree, runs0, runs, earlier)
    ensures runs0 <= runs && |runs| <= |runs0| + n && earlier == Answered(author, n) && tree == Overlay(before, earlier)
    ensures NoneOf(runs, |runs0|, |runs|, Failed) && DraftRuns(author, n, before, |runs0|, runs)
    ensures forall last :: BrokenOff(earlier, author, n, last)
  {
    hide DraftRuns, Overlay, Answered, NoneOf;
  }

  method AuthorTests(sandbox: CodeSandbox, attempts: nat, affected: seq<Path>, author: nat -> Reply)
    returns (r: Authored, asked: nat, ghost earlier: seq<FileEdit>)
    modifies sandbox
    ensures asked <= attempts && sandbox.calls >= old(sandbox.calls)
    ensures old(sandbox.runs) <= sandbox.runs && |sandbox.runs| <= |old(sandbox.runs)| + asked
    ensures r.AuthorThrew? <==> Broke(sandbox.health, old(sandbox.calls), sandbox.calls) || Raised(author, asked)
    ensures r.AuthorThrew? ==>
      && sandbox.calls > old(sandbox.calls)
      && BrokenOff(earlier, author, asked, sandbox.health(sandbox.calls - 1))
      && NoneOf(sandbox.runs, |old(sandbox.runs)|, |sandbox.runs|, Failed)
    ensures !r.AuthorThrew? ==> DraftRuns(author, asked, old(sandbox.tree), |old(sandbox.runs)|, sandbox.runs)
    ensures r.Red? ==>
      && 0 < asked && author(asked - 1) == Files(r.tests) && r.tests != []
      && earlier == Answered(author, asked - 1)
      && |sandbox.runs| > |old(sandbox.runs)|
      && sandbox.runs[|sandbox.runs| - 1] == TestRun(sandbox.tree, Failed)
      && sandbox.tree == Overlay(Overlay(old(sandbox.tree), earlier), r.tests)
      && NoneOf(sandbox.runs, |old(sandbox.runs)|, |sandbox.runs| - 1, Failed)
    ensures r.NotRed? ==>
      && asked == attempts && earlier == Answered(author, attempts)
      && NoneOf(sandbox.runs, |old(sandbox.runs)|, |sandbox.runs|, Failed)
      && (r.suitePassed <==> WroteTests(author, attempts))
    ensures !r.Red? ==> sandbox.tree == Overlay(old(sandbox.tree), earlier)
  {
    hide DraftRuns, Overlay, WrittenBy, WroteTests, Broke, Raised, Answered, BrokenOff, NoneOf, Drafted;
    BrokeNext(sandbox.health, sandbox.calls, sandbox.calls);
    RaisedNext(author, 0);
    asked := 0;
    earlier := [];
    var suitePassed := false;
    ghost var runs0, calls0, tree0 := sandbox.runs, sandbox.calls, sandbox.tree;
    NothingDrafted(author, tree0, runs0);
    while asked < attempts
      invariant asked <= attempts && calls0 <= sandbox.calls
      invariant !Broke(sandbox.health, calls0, sandbox.calls) && !Raised(author, asked)
      invariant Drafted(author, asked, tree0, sandbox.tree, runs0, sandbox.runs, earlier)
      invariant suitePassed <==> WroteTests(author, asked)
    {
      ghost var n, tree, runs := asked, sandbox.tree, sandbox.runs;
      BrokeNext(sandbox.health, calls0, sandbox.calls);
      var ok, _ := sandbox.ReadFiles(affected);
      if !ok {
        DraftedFacts(author, n, tree0, tree, runs0, runs, earlier);
        return AuthorThrew, asked, earlier;
      }
      var reply := author(asked);
      WroteMore(author, asked);
      RaisedNext(author, asked);
      asked := asked + 1;
      if reply.Raises? {
        DraftedNothing(author, n, tree0, tree, runs0, runs, earlier);
        DraftedFacts(author, asked, tree0, tree, runs0, runs, earlier);
        return AuthorThrew, asked, earlier;
      }
      if reply.files == [] {
        DraftedNothing(author, n, tree0, tree, runs0, runs, earlier);
        continue;
      }
      BrokeNext(sandbox.health, calls0, sandbox.calls);
      ok := sandbox.WriteFiles(reply.files);
      if !ok {
        DraftedFiles(author, n, tree0, tree, runs0, runs, earlier, sandbox.health(sandbox.calls - 1));
        DraftedFacts(author, n, tree0, tree, runs0, runs, earlier);
        earlier := earlier + WrittenBy(reply.files, sandbox.health(sandbox.calls - 1));
        return AuthorThrew, asked, earlier;
      }
      BrokeNext(sandbox.health, calls0, sandbox.calls);
      var status := sandbox.RunTests();
      if status.None? {
        DraftedFiles(author, n, tree0, tree, runs0, runs, earlier, sandbox.health(sandbox.calls - 1));
        DraftedFacts(author, n, tree0, tree, runs0, runs, earlier);
        earlier := earlier + reply.files;
        return AuthorThrew, asked, earlier;
      }
      DraftedRun(author, n, tree0, tree, runs0, runs, earlier, TestRun(sandbox.tree, status.value));
      if status == Some(Failed) {
        DraftedFacts(author, n, tree0, tree, runs0, runs, earlier);
        return Red(reply.files), asked, earlier;
      }
      earlier := earlier + reply.files;
      suitePassed := true;
    }
    DraftedFacts(author, asked, tree0, sandbox.tree, runs0, sandbox.runs, earlier);
    return NotRed(suitePassed), asked, earlier;
  }

  lemma WroteMore(author: nat -> Reply, n: nat)
    ensures WroteTests(author, n + 1) <==> WroteTests(author, n) || (author(n).Files? && author(n).files != [])
    ensures forall m | n < m :: WroteTests(author, n + 1) ==> WroteTests(author, m)
  {
    if author(n).Files? && author(n).files != [] {
      assert WroteTests(author, n + 1);
    }
  }

  // ---- The implementer ----

  // Adds each file's path once, in order.
  function Touch(touched: seq<Path>, files: seq<FileEdit>): seq<Path> {
    if files == [] then touched
    else
      var before := Touch(touched, files[..|files| - 1]);
      var p := files[|files| - 1].path;
      if p in before then before else before + [p]
  }

  lemma {:induction false} TouchElements(touched: seq<Path>, files: seq<FileEdit>)
    ensures Elements(Touch(touched, files)) == Elements(touched) + Paths(files)
  {
    if files != [] {
      var rest, p := files[..|files| - 1], files[|files| - 1].path;
      TouchElements(touched, rest);
      PathsSplit(files);
      var before := Touch(touched, rest);
      if p in before {
        var i :| 0 <= i < |before| && before[i] == p;
        assert p in Elements(before);
      } else {
        ElementsAppend(before, p);
      }
    }
  }

  lemma ElementsAppend(paths: seq<Path>, p: Path)
    ensures Elements(paths + [p]) == Elements(paths) + {p}
  {
    forall q | q in Elements(paths) ensures q in Elements(paths + [p]) {
      var i :| 0 <= i < |paths| && paths[i] == q;
      assert (paths + [p])[i] == q;
    }
    assert (paths + [p])[|paths|] == p;
  }

  datatype Implemented = Green(touched: seq<Path>) | NotGreen(touched: seq<Path>) | ImplementerThrew

  // After each reply the suite was run on everything written by then.
  ghost predicate TriedRuns(replies: nat -> Reply, n: nat, before: Tree, from: nat, runs: seq<TestRun>) {
    && |runs| == from + n
    && forall k: nat | 1 <= k <= n :: runs[from + k - 1].tree == Overlay(before, Answered(replies, k))
  }

  lemma TriedRunsMore(replies: nat -> Reply, n: nat, before: Tree, from: nat, runs: seq<TestRun>, run: TestRun)
    requires TriedRuns(replies, n, before, from, runs) && run.tree == Overlay(before, Answered(replies, n + 1))
    ensures TriedRuns(replies, n + 1, before, from, runs + [run])
  {
    hide Overlay, Answered;
    var more := runs + [run];
    forall k: nat | 1 <= k <= n + 1 ensures more[from + k - 1].tree == Overlay(before, Answered(replies, k)) {
      if k <= n { assert more[from + k - 1] == runs[from + k - 1]; }
    }
  }

  // Between two replies, with nothing gone wrong and no green run.
  ghost predicate Tried(implementer: nat -> Reply, n: nat, before: Tree, tree: Tree, runs0: seq<TestRun>, runs: seq<TestRun>,
                        touched: seq<Path>, seen: seq<Path>, written: seq<FileEdit>) {
    && runs0 <= runs
    && written == Answered(implementer, n) && tree == Overlay(before, written) && seen == Touch(touched, written)
    && NoneOf(runs, |runs0|, |runs|, Passed)
    && TriedRuns(implementer, n, before, |runs0|, runs)
  }

  lemma NothingTried(implementer: nat -> Reply, tree: Tree, runs: seq<TestRun>, touched: seq<Path>)
    ensures Tried(implementer, 0, tree, tree, runs, runs, touched, touched, [])
  {
  }

  lemma TriedFiles(implementer: nat -> Reply, n: nat, before: Tree, tree: Tree, runs0: seq<TestRun>, runs: seq<TestRun>,
                   touched: seq<Path>, seen: seq<Path>, written: seq<FileEdit>, last: CallOutcome)
    requires Tried(implementer, n, before, tree, runs0, runs, touched, seen, written)
    ensures var files := FilesOf(implementer(n));
      && Overlay(tree, files) == Overlay(before, written + files) && written + files == Answered(implementer, n + 1)
      && (files == [] ==> written + files == written)
      && Touch(seen, files) == Touch(touched, written + files)
      && Overlay(tree, WrittenBy(files, last)) == Overlay(before, written + WrittenBy(files, last))
      && BrokenOff(written, implementer, n, last)
      && BrokenOff(written + WrittenBy(files, last), implementer, n + 1, last)
      && BrokenOff(written + files, implementer, n + 1, last)
  {
    hide TriedRuns, Overlay, WrittenBy, Answered, FilesOf, NoneOf, Touch;
    AnsweredNext(implementer, n);
    OverlayAppend(before, written, FilesOf(implementer(n)));
    OverlayAppend(before, written, WrittenBy(FilesOf(implementer(n)), last));
    TouchAppend(touched, written, FilesOf(implementer(n)));
  }

  lemma TriedRun(implementer: nat -> Reply, n: nat, before: Tree, tree: Tree, runs0: seq<TestRun>, runs: seq<TestRun>,
                 touched: seq<Path>, seen: seq<Path>, written: seq<FileEdit>, run: TestRun)
    requires Tried(implementer, n, before, tree, runs0, runs, touched, seen, written)
    requires run.tree == Overlay(tree, FilesOf(implementer(n)))
    ensures var more, files := runs + [run], FilesOf(implementer(n));
      && runs0 <= more && TriedRuns(implementer, n + 1, before, |runs0|, more)
      && NoneOf(more, |runs0|, |more| - 1, Passed)
      && (run.status != Passed ==>
            Tried(implementer, n + 1, before, run.tree, runs0, more, touched, Touch(seen, files), written + files))
  {
    hide TriedRuns, Overlay, Answered, FilesOf, NoneOf, WrittenBy, BrokenOff, Touch;
    TriedFiles(implementer, n, before, tree, runs0, runs, touched, seen, written, Works);
    TriedRunsMore(implementer, n, before, |runs0|, runs, run);
    NoneOfMore(runs, |runs0|, run, Passed);
  }

  lemma TriedFacts(implementer: nat -> Reply, n: nat, before: Tree, tree: Tree, runs0: seq<TestRun>, runs: seq<TestRun>,
                   touched: seq<Path>, seen: seq<Path>, written: seq<FileEdit>)
    requires Tried(implementer, n, before, tree, runs0, runs, touched, seen, written)
    ensures runs0 <= runs && |runs| == |runs0| + n && NoneOf(runs, |runs0|, |runs|, Passed)
    ensures written == Answered(implementer, n) && tree == Overlay(before, written) && seen == Touch(touched, written)
    ensures TriedRuns(implementer, n, before, |runs0|, runs)
    ensures forall last :: BrokenOff(written, implementer, n, last)
  {
    hide Overlay, Answered, NoneOf, Touch;
  }

  method Implement(sandbox: CodeSandbox, attempts: nat, affected: seq<Path>, touched: seq<Path>,
                   implementer: nat -> Reply)
    returns (r: Implemented, asked: nat, ghost written: seq<FileEdit>)
    modifies sandbox
    ensures asked <= attempts && sandbox.calls >= old(sandbox.calls)
    ensures old(sandbox.runs) <= sandbox.runs && |sandbox.runs| <= |old(sandbox.runs)| + asked
    ensures sandbox.tree == Overlay(old(sandbox.tree), written)
    ensures r.ImplementerThrew? <==> Broke(sandbox.health, old(sandbox.calls), sandbox.calls) || Raised(implementer, asked)
    ensures r.ImplementerThrew? ==>
      && sandbox.calls > old(sandbox.calls)
      && BrokenOff(written, implementer, asked, sandbox.health(sandbox.calls - 1))
      && NoneOf(sandbox.runs, |old(sandbox.runs)|, |sandbox.runs|, Passed)
    ensures !r.ImplementerThrew? ==>
      && written == Answered(implementer, asked) && r.touched == Touch(touched, written)
      && TriedRuns(implementer, asked, old(sandbox.tree), |old(sandbox.runs)|, sandbox.runs)
    ensures r.Green? ==>
      && |sandbox.runs| > |old(sandbox.runs)|
      && sandbox.runs[|sandbox.runs| - 1] == TestRun(sandbox.tree, Passed)
      && NoneOf(sandbox.runs, |old(sandbox.runs)|, |sandbox.runs| - 1, Passed)
    ensures r.NotGreen? ==>
      && asked == attempts && NoneOf(sandbox.runs, |old(sandbox.runs)|, |sandbox.runs|, Passed)
  {
    hide Overlay, WrittenBy, Touch, Broke, Raised, TriedRuns, Answered, NoneOf, BrokenOff, Tried;
    asked := 0;
    written := [];
    var seen := touched;
    ghost var runs0, calls0, tree0 := sandbox.runs, sandbox.calls, sandbox.tree;
    BrokeNext(sandbox.health, calls0, calls0);
    RaisedNext(implementer, 0);
    NothingTried(implementer, tree0, runs0, touched);
    while asked < attempts
      invariant asked <= attempts && calls0 <= sandbox.calls
      invariant !Broke(sandbox.health, calls0, sandbox.calls) && !Raised(implementer, asked)
      invariant Tried(implementer, asked, tree0, sandbox.tree, runs0, sandbox.runs, touched, seen, written)
    {
      TriedFacts(implementer, asked, tree0, sandbox.tree, runs0, sandbox.runs, touched, seen, written);
      BrokeNext(sandbox.health, calls0, sandbox.calls);
      var ok, _ := sandbox.ReadFiles(affected);
      if !ok { return ImplementerThrew, asked, written; }
      var reply := implementer(asked);
      RaisedNext(implementer, asked);
      ghost var n, tree, runs, before, known := asked, sandbox.tree, sandbox.runs, written, seen;
      TriedFiles(implementer, n, tree0, tree, runs0, runs, touched, known, before, Works);
      asked := asked + 1;
      if reply.Raises? { return ImplementerThrew, asked, written; }
      BrokeNext(sandbox.health, calls0, sandbox.calls);
      ok := sandbox.WriteFiles(reply.files);
      TriedFiles(implementer, n, tree0, tree, runs0, runs, touched, known, before, sandbox.health(sandbox.calls - 1));
      if !ok {
        written := written + WrittenBy(reply.files, sandbox.health(sandbox.calls - 1));
        return ImplementerThrew, asked, written;
      }
      written := written + reply.files;
      seen := Touch(seen, reply.files);
      BrokeNext(sandbox.health, calls0, sandbox.calls);
      var status := sandbox.RunTests();
      TriedFiles(implementer, n, tree0, tree, runs0, runs, touched, known, before, sandbox.health(sandbox.calls - 1));
      if status.None? { return ImplementerThrew, asked, written; }
      TriedRun(implementer, n, tree0, tree, runs0, runs, touched, known, before, TestRun(sandbox.tree, status.value));
      if status == Some(Passed) { return Green(seen), asked, written; }
    }
    TriedFacts(implementer, asked, tree0, sandbox.tree, runs0, sandbox.runs, touched, seen, written);
    return NotGreen(seen), asked, written;
  }

  lemma {:induction false} TouchAppend(touched: seq<Path>, a: seq<FileEdit>, b: seq<FileEdit>)
    ensures Touch(Touch(touched, a), b) == Touch(touched, a + b)
    decreases |b|
  {
    if b == [] {
      assert a + b == a;
    } else {
      assert (a + b)[..|a + b| - 1] == a + b[..|b| - 1];
      TouchAppend(touched, a, b[..|b| - 1]);
    }
  }

  // ---- The refactor ----

  // How the best-effort refactor of a green tree leaves it. Kept: the suite passed on what stands
  // there now. Otherwise, unless a sandbox call broke after writing began, the green contents stand
  // at every path the attempt changed.
  ghost predicate Refactored(green: Tree, tree: Tree, touched: seq<Path>, changed: seq<Path>, newRuns: seq<TestRun>,
                             unkept: set<Path>, late: bool) {
    && SameOutside(green, tree, unkept + Elements(changed))
    && Elements(touched) <= Elements(changed)
    && (forall p | p in Elements(changed) :: p in tree)
    && |newRuns| <= 1
    && (if late then changed == touched
        else if unkept == {} && newRuns != [] && newRuns[0].status.Passed? then newRuns[0].tree == tree
        else changed == touched && forall p | p in Elements(touched) :: SameAt(green, tree, p))
  }

  function Offered(reply: Reply): set<Path> {
    if reply.Files? then Paths(reply.files) else {}
  }

  lemma NotRefactored(green: Tree, touched: seq<Path>)
    requires forall p | p in Elements(touched) :: p in green
    ensures Refactored(green, green, touched, touched, [], {}, false)
  {
  }

  lemma RefactorKept(green: Tree, touched: seq<Path>, files: seq<FileEdit>)
    requires forall p | p in Elements(touched) :: p in green
    ensures var tree := Overlay(green, files);
      Refactored(green, tree, touched, Touch(touched, files), [TestRun(tree, Passed)], {}, false)
  {
    OverlayFrame(green, files);
    TouchElements(touched, files);
  }

  // Writing the snapshot back restores the touched paths, and those only.
  lemma RefactorReverted(green: Tree, touched: seq<Path>, files: seq<FileEdit>, status: TestStatus)
    requires (forall p | p in Elements(touched) :: p in green) && status != Passed
    ensures var dirty := Overlay(green, files);
      Refactored(green, Overlay(dirty, Snapshot(green, touched)), touched, touched, [TestRun(dirty, status)], Paths(files), false)
  {
    var dirty := Overlay(green, files);
    var snapshot := Snapshot(green, touched);
    ElementsExist(green, touched);
    SnapshotPaths(green, touched);
    OverlayFrame(green, files);
    OverlayFrame(dirty, snapshot);
    OverlayRestores(dirty, green, snapshot);
  }

  // Parts of the files, and then of the snapshot, were written before something broke.
  lemma RefactorBroken(green: Tree, touched: seq<Path>, files: seq<FileEdit>, written: seq<FileEdit>,
                       restored: seq<FileEdit>, runs: seq<TestRun>)
    requires (forall p | p in Elements(touched) :: p in green) && |runs| <= 1
    requires PartlyWritten(files, written) && PartlyWritten(Snapshot(green, touched), restored)
    ensures Refactored(green, Overlay(Overlay(green, written), restored), touched, touched, runs, Paths(files), true)
  {
    var dirty := Overlay(green, written);
    ElementsExist(green, touched);
    SnapshotPaths(green, touched);
    PartlyWrittenPaths(files, written);
    PartlyWrittenPaths(Snapshot(green, touched), restored);
    OverlayFrame(green, written);
    OverlayFrame(dirty, restored);
  }

  // Which sandbox call, if any, breaks once the refactor has begun to write. The exception is swallowed.
  datatype Breakage = NothingBreaks | WriteBreaks | RunBreaks | RevertBreaks

  // How a refactor ended: before it wrote anything, or after, with what a broken write of its files or of
  // the snapshot left behind, and how the suite ended on its files.
  datatype Ending =
    | Untouched
    | Wrote(b: Breakage, status: TestStatus, written: seq<FileEdit>, restored: seq<FileEdit>)

  ghost predicate CanEnd(green: Tree, touched: seq<Path>, files: seq<FileEdit>, e: Ending) {
    e.Wrote? ==>
      && PartlyWritten(files, e.written) && PartlyWritten(Snapshot(green, touched), e.restored)
      && (e.b.RevertBreaks? ==> !e.status.Passed?)
  }

  // A sandbox call broke once the refactor had begun to write.
  predicate IsLate(e: Ending) {
    e.Wrote? && !e.b.NothingBreaks?
  }

  predicate IsKept(e: Ending) {
    e.Wrote? && e.b.NothingBreaks? && e.status.Passed?
  }

  // The tree a refactor leaves.
  function LeftByRefactor(green: Tree, touched: seq<Path>, files: seq<FileEdit>, e: Ending): Tree {
    if e.Untouched? then green
    else
      match e.b
      case WriteBreaks => Overlay(green, e.written)
      case RunBreaks => Overlay(green, files)
      case RevertBreaks => Overlay(Overlay(green, files), e.restored)
      case NothingBreaks =>
        if e.status.Passed? then Overlay(green, files) else Overlay(Overlay(green, files), Snapshot(green, touched))
  }

  function RunsOfRefactor(green: Tree, files: seq<FileEdit>, e: Ending): seq<TestRun> {
    if e.Untouched? || e.b.WriteBreaks? || e.b.RunBreaks? then [] else [TestRun(Overlay(green, files), e.status)]
  }

  function ChangedByRefactor(touched: seq<Path>, files: seq<FileEdit>, e: Ending): seq<Path> {
    if IsKept(e) then Touch(touched, files) else touched
  }

  function Unkept(files: seq<FileEdit>, e: Ending): set<Path> {
    if e.Untouched? || IsKept(e) then {} else Paths(files)
  }

  // The ending follows from how the calls end: reading the snapshot, writing, running, restoring.
  predicate EndsBy(e: Ending, reply: Reply, snapshot: seq<FileEdit>, health: nat -> CallOutcome,
                   verdicts: nat -> TestStatus, first: nat) {
    if health(first).Breaks? || reply.Raises? || reply.files == [] then e.Untouched?
    else
      e.Wrote? &&
      if health(first + 1).Breaks? then e.b.WriteBreaks? && e.written == WrittenBy(reply.files, health(first + 1))
      else if health(first + 2).Breaks? then e.b.RunBreaks?
      else
        e.status == verdicts(first + 3) &&
        if e.status.Passed? || health(first + 3).Works? then e.b.NothingBreaks?
        else e.b.RevertBreaks? && e.restored == WrittenBy(snapshot, health(first + 3))
  }

  lemma EndingIsRefactored(green: Tree, touched: seq<Path>, files: seq<FileEdit>, e: Ending)
    requires (forall p | p in Elements(touched) :: p in green) && CanEnd(green, touched, files, e)
    ensures Refactored(green, LeftByRefactor(green, touched, files, e), touched, ChangedByRefactor(touched, files, e),
                       RunsOfRefactor(green, files, e), Unkept(files, e), IsLate(e))
  {
    hide Refactored, Overlay, Paths, Elements, Snapshot, Touch;
    NotRefactored(green, touched);
    if e.Wrote? {
      NothingRestored(green, touched, e.written);
      NothingRestored(green, touched, files);
      match e.b
      case WriteBreaks => RefactorBroken(green, touched, files, e.written, [], []);
      case RunBreaks => RefactorBroken(green, touched, files, files, [], []);
      case RevertBreaks =>
        RefactorBroken(green, touched, files, files, e.restored, [TestRun(Overlay(green, files), e.status)]);
      case NothingBreaks =>
        if e.status.Passed? { RefactorKept(green, touched, files); }
        else { RefactorReverted(green, touched, files, e.status); }
    }
  }

  lemma EmptyPartly(green: Tree, touched: seq<Path>, files: seq<FileEdit>)
    ensures PartlyWritten(files, []) && PartlyWritten(Snapshot(green, touched), [])
  {
  }

  lemma UnkeptOffered(reply: Reply, e: Ending)
    ensures Unkept(FilesOf(reply), e) <= Offered(reply)
  {
  }

  method Refactor(sandbox: CodeSandbox, touched: seq<Path>, reply: Reply)
    returns (threw: bool, changed: seq<Path>, asked: nat, ghost e: Ending)
    requires forall p | p in Elements(touched) :: p in sandbox.tree
    modifies sandbox
    ensures var files := FilesOf(reply);
      && CanEnd(old(sandbox.tree), touched, files, e)
      && sandbox.tree == LeftByRefactor(old(sandbox.tree), touched, files, e)
      && sandbox.runs == old(sandbox.runs) + RunsOfRefactor(old(sandbox.tree), files, e)
      && changed == ChangedByRefactor(touched, files, e)
    ensures EndsBy(e, reply, Snapshot(old(sandbox.tree), touched), sandbox.health, sandbox.verdicts, old(sandbox.calls))
    ensures IsLate(e) ==> sandbox.calls > old(sandbox.calls) && sandbox.health(sandbox.calls - 1).Breaks?
    ensures threw <==> sandbox.health(old(sandbox.calls)).Works? && reply == Raises(true)
    ensures asked == if sandbox.health(old(sandbox.calls)).Works? then 1 else 0
    ensures sandbox.calls > old(sandbox.calls)
  {
    hide Overlay, Paths, Elements, Snapshot, Touch, WrittenBy, PartlyWritten;
    EmptyPartly(sandbox.tree, touched, FilesOf(reply));
    threw, changed, asked, e := false, touched, 0, Untouched;
    ghost var green := sandbox.tree;
    var ok, snapshot := sandbox.ReadFiles(touched);
    if !ok { return; }
    asked := 1;
    if reply.Raises? {
      threw := reply.budget;
      return;
    }
    if reply.files == [] { return; }
    ok := sandbox.WriteFiles(reply.files);
    if !ok {
      ghost var written := WrittenBy(reply.files, sandbox.health(sandbox.calls - 1));
      e := Wrote(WriteBreaks, Errored, written, []);
      return;
    }
    var status := sandbox.RunTests();
    if status.None? {
      e := Wrote(RunBreaks, Errored, [], []);
      return;
    }
    e := Wrote(NothingBreaks, status.value, [], []);
    if status == Some(Passed) {
      changed := Touch(touched, reply.files);
      return;
    }
    ok := sandbox.WriteFiles(snapshot);
    if !ok {
      ghost var restored := WrittenBy(snapshot, sandbox.health(sandbox.calls - 1));
      e := Wrote(RevertBreaks, status.value, [], restored);
    }
  }

  lemma NothingRestored(green: Tree, touched: seq<Path>, written: seq<FileEdit>)
    ensures Overlay(Overlay(green, written), []) == Overlay(green, written)
    ensures PartlyWritten(Snapshot(green, touched), []) && PartlyWritten(written, written)
  {
  }

  lemma ElementsExist(t: Tree, paths: seq<Path>)
    requires forall p | p in Elements(paths) :: p in t
    ensures Existing(t, paths) == Elements(paths)
  {
  }

  // ---- The whole attempt ----

  // The first failing run from `from` on.
  ghost predicate FirstRed(runs: seq<TestRun>, from: nat, i: nat) {
    from <= i < |runs| && runs[i].status.Failed? && NoneOf(runs, from, i, Failed)
  }

  ghost predicate RedThenGreen(runs: seq<TestRun>, from: nat) {
    exists i: nat, j: nat :: FirstRed(runs, from, i) && i < j < |runs| && runs[j].status.Passed?
  }

  ghost predicate RedOnly(runs: seq<TestRun>, from: nat) {
    exists i: nat :: FirstRed(runs, from, i) && NoneOf(runs, i + 1, |runs|, Passed)
  }

  // Some passing run after `from` saw exactly what the tree now holds, everywhere but at these paths.
  ghost predicate PassedOutside(runs: seq<TestRun>, from: nat, tree: Tree, apart: set<Path>) {
    exists j: nat | from < j < |runs| :: runs[j].status.Passed? && SameOutside(runs[j].tree, tree, apart)
  }

  // What `done` promises: the tests failed without any implementation, the suite passed with one, and what
  // stands everywhere but at paths the refactor wrote in vain is what a passing run saw.
  ghost predicate Sound(before: Tree, from: nat, runs: seq<TestRun>, tree: Tree, changed: seq<Path>, t: Trace) {
    && from <= t.redAt < t.greenAt < |runs|
    && t.tests != []
    && runs[t.redAt] == TestRun(Overlay(Overlay(before, t.authored), t.tests), Failed)
    && runs[t.greenAt] == TestRun(Overlay(runs[t.redAt].tree, t.implemented), Passed)
    && Paths(t.tests) + Paths(t.implemented) <= Elements(changed)
    && SameOutside(before, tree, Paths(t.authored) + t.unkept + Elements(changed))
    && (forall p | p in Elements(changed) :: p in tree)
    && (!t.late ==> PassedOutside(runs, t.redAt, tree, t.unkept - Elements(changed)))
  }

  lemma RefactorSound(green: Tree, tree: Tree, touched: seq<Path>, changed: seq<Path>, runs: seq<TestRun>, greenAt: nat,
                      from: nat, unkept: set<Path>, late: bool)
    requires from < greenAt < |runs| && runs[greenAt] == TestRun(green, Passed)
    requires Refactored(green, tree, touched, changed, runs[greenAt + 1..], unkept, late) && !late
    ensures PassedOutside(runs, from, tree, unkept - Elements(changed))
  {
    var more := runs[greenAt + 1..];
    if unkept == {} && more != [] && more[0].status.Passed? {
      assert runs[greenAt + 1] == more[0];
    } else {
      forall p | p !in unkept - Elements(changed) ensures SameAt(green, tree, p) {
        assert p in Elements(touched) || p !in unkept + Elements(changed);
      }
    }
  }

  lemma SameOutsideTransitive(a: Tree, b: Tree, c: Tree, first: set<Path>, second: set<Path>)
    requires SameOutside(a, b, first) && SameOutside(b, c, second)
    ensures SameOutside(a, c, first + second)
  {
    forall p | p !in first + second ensures SameAt(a, c, p) {
      assert SameAt(a, b, p) && SameAt(b, c, p);
    }
  }

  lemma SameOutsideWider(a: Tree, b: Tree, narrow: set<Path>, wide: set<Path>)
    requires SameOutside(a, b, narrow) && narrow <= wide
    ensures SameOutside(a, b, wide)
  {
  }

  // The tests and the implementation change nothing but their own paths.
  lemma WrittenFrame(before: Tree, authored: seq<FileEdit>, tests: seq<FileEdit>, implemented: seq<FileEdit>)
    ensures SameOutside(before, Overlay(Overlay(Overlay(before, authored), tests), implemented),
                        Paths(authored) + Paths(tests) + Paths(implemented))
    ensures forall p | p in Paths(tests) + Paths(implemented) ::
      p in Overlay(Overlay(Overlay(before, authored), tests), implemented)
  {
    var a := Overlay(before, authored);
    var b := Overlay(a, tests);
    OverlayFrame(before, authored);
    OverlayFrame(a, tests);
    OverlayFrame(b, implemented);
    SameOutsideTransitive(before, a, b, Paths(authored), Paths(tests));
    SameOutsideTransitive(before, b, Overlay(b, implemented), Paths(authored) + Paths(tests), Paths(implemented));
  }

  lemma EmptyElements()
    ensures Elements([]) == {}
  {
  }

  // The sandbox shows red: the author's last tests fail, and nothing but tests was written.
  ghost predicate AtRed(sandbox: CodeSandbox, before: Tree, from: nat, authored: seq<FileEdit>, tests: seq<FileEdit>)
    reads sandbox
  {
    && tests != [] && from < |sandbox.runs|
    && sandbox.runs[|sandbox.runs| - 1] == TestRun(sandbox.tree, Failed)
    && sandbox.tree == Overlay(Overlay(before, authored), tests)
    && NoneOf(sandbox.runs, from, |sandbox.runs| - 1, Failed)
  }

  // The sandbox call just made broke.
  ghost predicate LastCallBroke(sandbox: CodeSandbox)
    reads sandbox
  {
    sandbox.calls > 0 && sandbox.health(sandbox.calls - 1).Breaks?
  }

  // What stands in the trace is what the agents answered: every reply up to the last one asked for, in order.
  ghost predicate Told(t: Trace, author: nat -> Reply, implementer: nat -> Reply, ladder: nat, o: Outcome) {
    if o.AlreadySatisfied? || o == Escalated(TestStage) then t.drafts == ladder && t.authored == Answered(author, ladder)
    else
      && 0 < t.drafts <= ladder && author(t.drafts - 1) == Files(t.tests) && t.authored == Answered(author, t.drafts - 1)
      && t.tries <= ladder && (o.Escalated? ==> t.tries == ladder)
      && t.implemented == Answered(implementer, t.tries)
  }

  // Every path of the tests and of the implementation, once, in the order of their first writing.
  function TouchedBy(t: Trace): seq<Path> {
    Touch(Touch([], t.tests), t.implemented)
  }

  // How the refactor, begun with the call the trace names, went on from the green tree.
  ghost predicate TakenOn(sandbox: CodeSandbox, t: Trace, refactor: Reply, changed: seq<Path>)
    reads sandbox
  {
    && t.refactorAt.Some? && t.refactorAt.value < sandbox.calls && t.greenAt < |sandbox.runs|
    && var green, files := sandbox.runs[t.greenAt].tree, FilesOf(refactor);
    && EndsBy(t.ending, refactor, Snapshot(green, TouchedBy(t)), sandbox.health, sandbox.verdicts, t.refactorAt.value)
    && sandbox.tree == LeftByRefactor(green, TouchedBy(t), files, t.ending)
    && sandbox.runs == sandbox.runs[..t.greenAt + 1] + RunsOfRefactor(green, files, t.ending)
    && changed == ChangedByRefactor(TouchedBy(t), files, t.ending)
    && t.unkept == Unkept(files, t.ending) && t.late == IsLate(t.ending)
  }

  // The refactor changes no path in vain but those it was made to write.
  lemma TakenOnFacts(sandbox: CodeSandbox, t: Trace, refactor: Reply, changed: seq<Path>)
    requires TakenOn(sandbox, t, refactor, changed)
    ensures t.unkept <= Offered(refactor) && changed == ChangedByRefactor(TouchedBy(t), FilesOf(refactor), t.ending)
  {
    hide EndsBy, LeftByRefactor, RunsOfRefactor, Touch;
    UnkeptOffered(refactor, t.ending);
  }

  // Why an attempt throws: before the refactor, because a sandbox call broke or a reply asked for was an
  // exception; after, because the refactor ran out of budget.
  ghost predicate Throws(sandbox: CodeSandbox, first: nat, t: Trace, author: nat -> Reply, implementer: nat -> Reply,
                         refactor: Reply)
    reads sandbox
  {
    match t.refactorAt
    case None => Broke(sandbox.health, first, sandbox.calls) || Raised(author, t.drafts) || Raised(implementer, t.tries)
    case Some(at) => sandbox.health(at).Works? && refactor == Raises(true)
  }

  // From red to green, and on to the refactor.
  method BuildFromRed(sandbox: CodeSandbox, ladder: nat, affected: seq<Path>, tests: seq<FileEdit>,
                      implementer: nat -> Reply, refactor: Reply,
                      ghost before: Tree, ghost from: nat, ghost authored: seq<FileEdit>, ghost drafts: nat)
    returns (r: TddResult, asked: nat, ghost t: Trace)
    requires AtRed(sandbox, before, from, authored, tests)
    modifies sandbox
    ensures old(sandbox.runs) <= sandbox.runs && |sandbox.runs| <= |old(sandbox.runs)| + ladder + 1
    ensures t.drafts == drafts && t.authored == authored && t.tests == tests && t.redAt == |old(sandbox.runs)| - 1
    ensures t.tries <= ladder && (r.Ended? ==> t.implemented == Answered(implementer, t.tries))
    ensures asked == t.tries + if t.refactorAt.Some? && sandbox.health(t.refactorAt.value).Works? then 1 else 0
    ensures sandbox.calls >= old(sandbox.calls)
    ensures match t.refactorAt
      case None => r.Threw? <==> Broke(sandbox.health, old(sandbox.calls), sandbox.calls) || Raised(implementer, t.tries)
      case Some(at) =>
        && at >= old(sandbox.calls) && (forall i: nat | old(sandbox.calls) <= i < at :: sandbox.health(i).Works?)
        && (r.Threw? <==> sandbox.health(at).Works? && refactor == Raises(true))
    ensures t.refactorAt.Some? <==> !NoneOf(sandbox.runs, |old(sandbox.runs)|, |sandbox.runs|, Passed)
    ensures r.Ended? ==> r.outcome == if t.refactorAt.Some? then Done else Escalated(ImplStage)
    ensures FirstRed(sandbox.runs, from, t.redAt)
    ensures r.Ended? && r.outcome == Escalated(ImplStage) ==> t.tries == ladder && r.changedPaths == TouchedBy(t)
    ensures r.Ended? && r.outcome.Done? ==>
      && t.greenAt == t.redAt + t.tries
      && TakenOn(sandbox, t, refactor, r.changedPaths)
      && (t.late ==> LastCallBroke(sandbox))
      && Sound(before, from, sandbox.runs, sandbox.tree, r.changedPaths, t)
  {
    hide Refactored, Elements, SameOutside, PassedOutside, Overlay, Paths, Sound, Offered, BrokenOff, Answered;
    hide CanEnd, LeftByRefactor, RunsOfRefactor, ChangedByRefactor, Unkept, EndsBy, IsLate, FilesOf, Touch, Snapshot;
    EmptyElements();
    TouchElements([], tests);
    var touched := Touch([], tests);
    ghost var redRuns, calls0 := sandbox.runs, sandbox.calls;
    t := Trace(drafts, authored, tests, 0, [], |redRuns| - 1, 0, None, Untouched, {}, false);

    var implemented, implAsked, written := Implement(sandbox, ladder, affected, touched, implementer);
    asked := implAsked;
    t := t.(tries := implAsked, implemented := written);
    FirstRedKept(redRuns, sandbox.runs, from, t.redAt);
    if implemented.ImplementerThrew? { return Threw, asked, t; }
    TouchElements(touched, written);
    if implemented.NotGreen? { return Ended(Escalated(ImplStage), implemented.touched), asked, t; }
    t := t.(greenAt := |sandbox.runs| - 1, refactorAt := Some(sandbox.calls));
    ghost var greenRuns, green, calls := sandbox.runs, sandbox.tree, sandbox.calls;
    WrittenFrame(before, authored, tests, written);

    var threw, changed, refactorAsked, e := Refactor(sandbox, implemented.touched, refactor);
    asked := asked + refactorAsked;
    ghost var unkept, late := Unkept(FilesOf(refactor), e), IsLate(e);
    t := t.(ending := e, unkept := unkept, late := late);
    FirstRedKept(redRuns, sandbox.runs, from, t.redAt);
    EndingIsRefactored(green, implemented.touched, FilesOf(refactor), e);
    assert sandbox.runs[|greenRuns|..] == RunsOfRefactor(green, FilesOf(refactor), e);
    RefactoredFacts(green, sandbox.tree, implemented.touched, changed, sandbox.runs[|greenRuns|..], unkept, late);
    assert sandbox.runs[t.greenAt].status.Passed?;
    if threw { return Threw, asked, t; }
    ghost var wrote := Paths(authored) + Paths(tests) + Paths(written);
    SameOutsideTransitive(before, green, sandbox.tree, wrote, unkept + Elements(changed));
    SameOutsideWider(before, sandbox.tree, wrote + (unkept + Elements(changed)), Paths(authored) + unkept + Elements(changed));
    if !late { RefactorSound(green, sandbox.tree, implemented.touched, changed, sandbox.runs, t.greenAt, t.redAt, unkept, late); }
    IsSound(before, from, sandbox.runs, sandbox.tree, changed, t);
    assert sandbox.runs[..t.greenAt + 1] == greenRuns;
    return Ended(Done, changed), asked, t;
  }

  method RunTaskTdd(sandbox: CodeSandbox, ladder: nat, examples: seq<Path>, affected: seq<Path>,
                    author: nat -> Reply, implementer: nat -> Reply, refactor: Reply)
    returns (r: TddResult, asked: nat, ghost t: Trace)
    modifies sandbox
    ensures t.drafts <= ladder && t.tries <= ladder
    ensures asked == t.drafts + t.tries + if t.refactorAt.Some? && sandbox.health(t.refactorAt.value).Works? then 1 else 0
    ensures old(sandbox.runs) <= sandbox.runs && |sandbox.runs| <= |old(sandbox.runs)| + 2 * ladder + 1
    ensures r.Threw? <==> Throws(sandbox, old(sandbox.calls), t, author, implementer, refactor)
    ensures t.refactorAt.Some? <==> RedThenGreen(sandbox.runs, |old(sandbox.runs)|)
    ensures t.refactorAt.Some? ==> forall i: nat | old(sandbox.calls) <= i < t.refactorAt.value :: sandbox.health(i).Works?
    ensures r.Ended? ==>
      && (r.outcome.AlreadySatisfied? <==>
            WroteTests(author, ladder) && NoneOf(sandbox.runs, |old(sandbox.runs)|, |sandbox.runs|, Failed))
      && (r.outcome == Escalated(TestStage) <==> !WroteTests(author, ladder))
      && (r.outcome == Escalated(ImplStage) <==> RedOnly(sandbox.runs, |old(sandbox.runs)|))
      && (r.outcome.Done? <==> RedThenGreen(sandbox.runs, |old(sandbox.runs)|))
    ensures r.Ended? ==> Told(t, author, implementer, ladder, r.outcome)
    ensures r.Ended? && r.outcome.Done? ==>
      && t.redAt == |old(sandbox.runs)| + Drafts(author, t.drafts) - 1 && t.greenAt == t.redAt + t.tries
      && Sound(old(sandbox.tree), |old(sandbox.runs)|, sandbox.runs, sandbox.tree, r.changedPaths, t)
      && TakenOn(sandbox, t, refactor, r.changedPaths)
      && (t.late ==> LastCallBroke(sandbox))
    ensures r.Ended? && !r.outcome.Done? ==>
      r.changedPaths == if r.outcome == Escalated(ImplStage) then TouchedBy(t) else []
    ensures r.Ended? && (r.outcome.AlreadySatisfied? || r.outcome == Escalated(TestStage)) ==>
      sandbox.tree == Overlay(old(sandbox.tree), t.authored)
    ensures Paths(t.authored) <= Paths(Answered(author, ladder))
  {
    hide RedOnly, RedThenGreen, WroteTests, FirstRed, Overlay, Paths, LastCallBroke, BrokenOff, Answered;
    hide TakenOn, Sound, Touch, Broke, Raised, DraftRuns, Drafts, NoneOf, SameOutside, TouchedBy, FilesOf;
    hide LeftByRefactor, RunsOfRefactor, ChangedByRefactor, EndsBy;
    t := Trace(0, [], [], 0, [], 0, 0, None, Untouched, {}, false);
    ghost var before, from, calls := sandbox.tree, |sandbox.runs|, sandbox.calls;
    NothingPaths(author, ladder);
    NothingShown(sandbox.runs, from);
    NoneOfNothing(sandbox.runs);
    RaisedNext(author, 0);
    RaisedNext(implementer, 0);
    BrokeNext(sandbox.health, calls, calls);
    var ok, _ := sandbox.ReadFiles(examples);
    if !ok { return Threw, 0, t; }

    ghost var begun := sandbox.calls;
    var authored, authorAsked, earlier := AuthorTests(sandbox, ladder, affected, author);
    BrokeSplit(sandbox.health, calls, begun, sandbox.calls);
    t := t.(drafts := authorAsked, authored := earlier);
    EarlierPaths(author, authorAsked, ladder, earlier, sandbox.health(if sandbox.calls > 0 then sandbox.calls - 1 else 0));
    NothingShown(sandbox.runs, from);
    if authored.AuthorThrew? { return Threw, authorAsked, t; }
    DraftRunsCount(author, authorAsked, before, from, sandbox.runs);
    if authored.NotRed? {
      DraftsAreTests(author, ladder);
      if authored.suitePassed { return Ended(AlreadySatisfied, []), authorAsked, t; }
      return Ended(Escalated(TestStage), []), authorAsked, t;
    }
    ghost var redRuns, redCalls := sandbox.runs, sandbox.calls;
    r, asked, t :=
      BuildFromRed(sandbox, ladder, affected, authored.tests, implementer, refactor, before, from, earlier, authorAsked);
    BrokeSplit(sandbox.health, calls, redCalls, sandbox.calls);
    asked := asked + authorAsked;
    ShownAfterRed(redRuns, sandbox.runs, from, t.redAt);
    RedWasDrafted(author, authorAsked, ladder, authored.tests);
  }

  lemma BrokeSplit(health: nat -> CallOutcome, a: nat, b: nat, c: nat)
    requires a <= b <= c
    ensures Broke(health, a, c) <==> Broke(health, a, b) || Broke(health, b, c)
    ensures !Broke(health, a, b) ==> forall i: nat | a <= i < b :: health(i).Works?
  {
  }

  lemma DraftRunsCount(replies: nat -> Reply, n: nat, before: Tree, from: nat, runs: seq<TestRun>)
    requires DraftRuns(replies, n, before, from, runs)
    ensures |runs| == from + Drafts(replies, n)
  {
  }

  // What the runs after the first red one say.
  lemma ShownAfterRed(redRuns: seq<TestRun>, runs: seq<TestRun>, from: nat, redAt: nat)
    requires redRuns <= runs && redAt + 1 == |redRuns| && FirstRed(runs, from, redAt)
    ensures RedThenGreen(runs, from) <==> !NoneOf(runs, |redRuns|, |runs|, Passed)
    ensures RedOnly(runs, from) <==> NoneOf(runs, |redRuns|, |runs|, Passed)
    ensures !NoneOf(runs, from, |runs|, Failed)
  {
    if NoneOf(runs, |redRuns|, |runs|, Passed) {
      ShownRedOnly(runs, from, redAt);
    } else {
      var j: nat :| |redRuns| <= j < |runs| && runs[j].status.Passed?;
      ShownRedThenGreen(runs, from, redAt, j);
    }
  }

  lemma RedWasDrafted(author: nat -> Reply, n: nat, ladder: nat, tests: seq<FileEdit>)
    requires 0 < n <= ladder && author(n - 1) == Files(tests) && tests != []
    ensures WroteTests(author, ladder)
  {
    assert author(n - 1).Files? && author(n - 1).files != [];
  }

  lemma NothingPaths(replies: nat -> Reply, n: nat)
    ensures Paths([]) <= Paths(Answered(replies, n))
  {
  }

  lemma EarlierPaths(replies: nat -> Reply, asked: nat, ladder: nat, files: seq<FileEdit>, last: CallOutcome)
    requires asked <= ladder
    ensures BrokenOff(files, replies, asked, last) ==> Paths(files) <= Paths(Answered(replies, ladder))
    ensures asked > 0 && files == Answered(replies, asked - 1) ==> Paths(files) <= Paths(Answered(replies, ladder))
  {
    hide Paths, Answered, BrokenOff;
    if BrokenOff(files, replies, asked, last) {
      BrokenOffPaths(files, replies, asked, last);
      AnsweredLater(replies, asked, ladder);
    }
    if asked > 0 { AnsweredLater(replies, asked - 1, ladder); }
  }

  lemma {:induction false} DraftsAreTests(replies: nat -> Reply, n: nat)
    ensures WroteTests(replies, n) <==> Drafts(replies, n) > 0
  {
    if n > 0 {
      DraftsAreTests(replies, n - 1);
      WroteMore(replies, n - 1);
    }
  }

  lemma FirstRedKept(runs: seq<TestRun>, more: seq<TestRun>, from: nat, i: nat)
    requires from <= i < |runs| && runs[i].status.Failed? && NoneOf(runs, from, i, Failed) && runs <= more
    ensures FirstRed(more, from, i)
    ensures runs[i].status.Failed? && NoneOf(more, from, i, Failed)
  {
    assert forall k | 0 <= k < |runs| :: more[k] == runs[k];
  }

  lemma IsSound(before: Tree, from: nat, runs: seq<TestRun>, tree: Tree, changed: seq<Path>, t: Trace)
    requires from <= t.redAt < t.greenAt < |runs| && t.tests != []
    requires runs[t.redAt] == TestRun(Overlay(Overlay(before, t.authored), t.tests), Failed)
    requires runs[t.greenAt] == TestRun(Overlay(runs[t.redAt].tree, t.implemented), Passed)
    requires Paths(t.tests) + Paths(t.implemented) <= Elements(changed)
    requires SameOutside(before, tree, Paths(t.authored) + t.unkept + Elements(changed))
    requires forall p | p in Elements(changed) :: p in tree
    requires !t.late ==> PassedOutside(runs, t.redAt, tree, t.unkept - Elements(changed))
    ensures Sound(before, from, runs, tree, changed, t)
  {
  }

  lemma RefactoredFacts(green: Tree, tree: Tree, touched: seq<Path>, changed: seq<Path>, newRuns: seq<TestRun>,
                        unkept: set<Path>, late: bool)
    requires Refactored(green, tree, touched, changed, newRuns, unkept, late)
    ensures Elements(touched) <= Elements(changed) && |newRuns| <= 1
    ensures SameOutside(green, tree, unkept + Elements(changed))
    ensures forall p | p in Elements(changed) :: p in tree
  {
  }

  // A stretch of runs without a failing one shows neither red nor green after red.
  lemma NothingShown(runs: seq<TestRun>, from: nat)
    ensures NoneOf(runs, from, |runs|, Failed) ==> !RedOnly(runs, from) && !RedThenGreen(runs, from)
    ensures RedOnly(runs, from) ==> !RedThenGreen(runs, from) && !NoneOf(runs, from, |runs|, Failed)
  {
    forall i: nat | FirstRed(runs, from, i) ensures !NoneOf(runs, from, |runs|, Failed) {
    }
  }

  lemma ShownRedOnly(runs: seq<TestRun>, from: nat, i: nat)
    requires FirstRed(runs, from, i) && NoneOf(runs, i + 1, |runs|, Passed)
    ensures RedOnly(runs, from) && !RedThenGreen(runs, from) && !NoneOf(runs, from, |runs|, Failed)
  {
  }

  lemma ShownRedThenGreen(runs: seq<TestRun>, from: nat, i: nat, j: nat)
    requires FirstRed(runs, from, i) && i < j < |runs| && runs[j].status.Passed?
    ensures RedThenGreen(runs, from) && !RedOnly(runs, from) && !NoneOf(runs, from, |runs|, Failed)
  {
  }

  // ---- Exactly when the refactor is sound ----

  // What stands at the touched paths is what a passing run saw: the green run, or one of the refactor's.
  ghost predicate Attested(green: Tree, touched: seq<Path>, tree: Tree, runs: seq<TestRun>) {
    || (forall p | p in Elements(touched) :: SameAt(green, tree, p))
    || exists i | 0 <= i < |runs| ::
         runs[i].status.Passed? && forall p | p in Elements(touched) :: SameAt(runs[i].tree, tree, p)
  }

  // Whatever the model and the green tree, a refactor that ends so leaves attested contents.
  ghost predicate AlwaysAttested(b: Breakage, status: TestStatus) {
    forall green, touched, files, written, restored ::
      AttestedOnce(green, touched, files, Wrote(b, status, written, restored))
  }

  ghost predicate AttestedOnce(green: Tree, touched: seq<Path>, files: seq<FileEdit>, e: Ending) {
    (forall p | p in Elements(touched) :: p in green) && CanEnd(green, touched, files, e) ==>
      Attested(green, touched, LeftByRefactor(green, touched, files, e), RunsOfRefactor(green, files, e))
  }

  const GREEN: Tree := map["f" := "verified"]
  const REWRITE := [FileEdit("f", "unverified")]

  // One touched file, rewritten by the refactor, with the breaking call leaving it rewritten.
  lemma BrokenRefactorUnattested(b: Breakage, status: TestStatus)
    requires !b.NothingBreaks? && (b.RevertBreaks? ==> !status.Passed?)
    ensures var e := Wrote(b, status, REWRITE, []);
      && CanEnd(GREEN, ["f"], REWRITE, e)
      && !Attested(GREEN, ["f"], LeftByRefactor(GREEN, ["f"], REWRITE, e), RunsOfRefactor(GREEN, REWRITE, e))
  {
    var e := Wrote(b, status, REWRITE, []);
    var left := LeftByRefactor(GREEN, ["f"], REWRITE, e);
    assert Overlay(GREEN, REWRITE) == GREEN["f" := "unverified"] by {
      assert REWRITE[..0] == [] && Overlay(GREEN, []) == GREEN;
    }
    assert left == GREEN["f" := "unverified"];
    assert ["f"][0] in Elements(["f"]);
    assert !SameAt(GREEN, left, "f");
  }

  lemma UnbrokenRefactorAttested(green: Tree, touched: seq<Path>, files: seq<FileEdit>, e: Ending)
    requires e.Wrote? && e.b.NothingBreaks?
    ensures AttestedOnce(green, touched, files, e)
  {
    if (forall p | p in Elements(touched) :: p in green) && CanEnd(green, touched, files, e) {
      if e.status.Passed? {
        assert RunsOfRefactor(green, files, e)[0] == TestRun(LeftByRefactor(green, touched, files, e), Passed);
      } else {
        RefactorReverted(green, touched, files, e.status);
      }
    }
  }

  // Of the endings a refactor can have once it has written, those where no sandbox call broke leave
  // attested contents for every green tree and every answer of the model, and no others do.
  lemma RefactorSoundIff(b: Breakage, status: TestStatus)
    requires b.RevertBreaks? ==> !status.Passed?
    ensures b.NothingBreaks? <==> AlwaysAttested(b, status)
  {
    hide AttestedOnce;
    if b.NothingBreaks? {
      forall green, touched, files, written, restored
        ensures AttestedOnce(green, touched, files, Wrote(b, status, written, restored))
      {
        UnbrokenRefactorAttested(green, touched, files, Wrote(b, status, written, restored));
      }
    } else {
      BrokenUnattestedOnce(b, status);
    }
  }

  lemma BrokenUnattestedOnce(b: Breakage, status: TestStatus)
    requires !b.NothingBreaks? && (b.RevertBreaks? ==> !status.Passed?)
    ensures !AttestedOnce(GREEN, ["f"], REWRITE, Wrote(b, status, REWRITE, []))
  {
    hide Attested, LeftByRefactor, RunsOfRefactor;
    BrokenRefactorUnattested(b, status);
    assert forall p | p in Elements(["f"]) :: p in GREEN;
  }

  // Which call of a refactor that starts with call 0 breaks.
  function BreakingCall(b: Breakage): nat
    requires !b.NothingBreaks?
  {
    match b
    case WriteBreaks => 1
    case RunBreaks => 2
    case RevertBreaks => 3
  }

  // A sandbox whose call `at` breaks, having written one file whole if it writes the files.
  function HealthOf(b: Breakage): nat -> CallOutcome
    requires !b.NothingBreaks?
  {
    var at := BreakingCall(b);
    call => if call == at then Breaks(if b.WriteBreaks? then 1 else 0, None) else Works
  }

  lemma EndsUnsound(b: Breakage, e: Ending)
    requires !b.NothingBreaks?
    requires EndsBy(e, Files(REWRITE), Snapshot(GREEN, ["f"]), HealthOf(b), call => Failed, 0)
    ensures e.Wrote? && e.b == b && (b.RevertBreaks? ==> !e.status.Passed?)
    ensures LeftByRefactor(GREEN, ["f"], REWRITE, e) == LeftByRefactor(GREEN, ["f"], REWRITE, Wrote(b, e.status, REWRITE, []))
  {
    hide Overlay;
    assert Snapshot(GREEN, ["f"]) != [] by { assert ["f"][..0] == []; }
  }

  // An execution of the refactor for each call that may break: the file it leaves was never seen passing.
  method RunUnsoundRefactor(b: Breakage) returns (sandbox: CodeSandbox, changed: seq<Path>)
    requires !b.NothingBreaks?
    ensures fresh(sandbox) && changed == ["f"]
    ensures !Attested(GREEN, changed, sandbox.tree, sandbox.runs)
  {
    hide Attested, LeftByRefactor, EndsBy, Overlay, Snapshot, CanEnd, HealthOf;
    sandbox := new CodeSandbox(GREEN, HealthOf(b), call => Failed);
    assert forall p | p in Elements(["f"]) :: p in sandbox.tree;
    var _, kept, _, e := Refactor(sandbox, ["f"], Files(REWRITE));
    changed := kept;
    EndsUnsound(b, e);
    BrokenRefactorUnattested(b, e.status);
    assert sandbox.runs == RunsOfRefactor(GREEN, REWRITE, Wrote(b, e.status, REWRITE, []));
  }
}
