// The implement run over its tasks: each task that lands is read back from the sandbox and committed
// to the branch the sandbox was cloned from.
module TaskCommits {
  import opened Wrappers
  import opened Sandbox
  import opened Tdd
  import opened Toolchain

  class Branch {
    var tree: Tree
    ghost var commits: seq<Tree>

    constructor (tree: Tree)
      ensures this.tree == tree && commits == []
    {
      this.tree := tree;
      commits := [];
    }

    // One commit of whole files. A commit that throws has not been made.
    method Commit(files: seq<FileEdit>, works: bool) returns (ok: bool)
      modifies this
      ensures ok == works
      ensures ok ==> tree == Overlay(old(tree), files) && commits == old(commits) + [tree]
      ensures !ok ==> tree == old(tree) && commits == old(commits)
    {
      if !works { return false; }
      tree := Overlay(tree, files);
      commits := commits + [tree];
      return true;
    }
  }

  // Everything the collaborators answer to one task.
  datatype TaskScript = TaskScript(
    affected: seq<Path>,
    author: nat -> Reply,
    implementer: nat -> Reply,
    refactor: Reply,
    commitWorks: bool)

  // Sandbox and branch hold the same everywhere but at the residue.
  ghost predicate Agree(sandbox: CodeSandbox, branch: Branch, residue: set<Path>)
    reads sandbox, branch
  {
    SameOutside(sandbox.tree, branch.tree, residue)
  }

  // Committing what stands at these paths makes the branch agree at those that exist.
  lemma CommitAgrees(sandbox: Tree, branch: Tree, paths: seq<Path>, residue: set<Path>)
    requires SameOutside(sandbox, branch, residue)
    ensures SameOutside(sandbox, Overlay(branch, Snapshot(sandbox, paths)), residue - Existing(sandbox, paths))
    ensures SameOutside(branch, Overlay(branch, Snapshot(sandbox, paths)), Existing(sandbox, paths))
    ensures forall p | p in Existing(sandbox, paths) :: SameAt(sandbox, Overlay(branch, Snapshot(sandbox, paths)), p)
  {
    var files := Snapshot(sandbox, paths);
    SnapshotPaths(sandbox, paths);
    OverlayFrame(branch, files);
    OverlayRestores(branch, sandbox, files);
    var committed := Overlay(branch, files);
    forall p | p !in residue - Existing(sandbox, paths) ensures SameAt(sandbox, committed, p) {
      if p in Existing(sandbox, paths) {
        assert SameAt(committed, sandbox, p);
      } else {
        assert SameAt(branch, committed, p) && SameAt(sandbox, branch, p);
      }
    }
    forall p | p in Existing(sandbox, paths) ensures SameAt(sandbox, committed, p) {
      assert SameAt(committed, sandbox, p);
    }
  }

  lemma AgreeStill(before: Tree, after: Tree, branch: Tree, residue: set<Path>, written: set<Path>)
    requires SameOutside(before, branch, residue) && SameOutside(before, after, written)
    ensures SameOutside(after, branch, residue + written)
  {
    forall p | p !in residue + written ensures SameAt(after, branch, p) {
      assert SameAt(before, branch, p) && SameAt(before, after, p);
    }
  }

  lemma AgreeEverywhere(a: Tree, b: Tree)
    requires SameOutside(a, b, {})
    ensures a == b
  {
    forall p | p in a ensures p in b && a[p] == b[p] { assert SameAt(a, b, p); }
    forall p | p in b ensures p in a { assert SameAt(a, b, p); }
  }

  // What passed in the sandbox passed for the branch, outside the paths at which they differ.
  lemma PassedOnBranch(runs: seq<TestRun>, from: nat, sandbox: Tree, branch: Tree, apart: set<Path>, residue: set<Path>)
    requires PassedOutside(runs, from, sandbox, apart) && apart <= residue && SameOutside(sandbox, branch, residue)
    ensures PassedOutside(runs, from, branch, residue)
  {
    var j: nat :| from < j < |runs| && runs[j].status.Passed? && SameOutside(runs[j].tree, sandbox, apart);
    forall p | p !in residue ensures SameAt(runs[j].tree, branch, p) {
      assert SameAt(runs[j].tree, sandbox, p) && SameAt(sandbox, branch, p);
    }
  }

  // The paths a task attempt may leave different from the branch: what its author wrote without ever
  // turning red, and what its refactor wrote without being kept.
  function Leftover(t: Trace): set<Path> {
    Paths(t.authored) + t.unkept
  }

  datatype TurnResult = Landed | Skipped | Stopped

  // The attempt ended, having found the task satisfied: the author wrote tests, and none ever failed.
  ghost predicate FindsSatisfied(sandbox: CodeSandbox, first: nat, from: nat, t: Trace, script: TaskScript, ladder: nat)
    reads sandbox
  {
    && !Throws(sandbox, first, t, script.author, script.implementer, script.refactor)
    && WroteTests(script.author, ladder) && NoneOf(sandbox.runs, from, |sandbox.runs|, Failed)
  }

  // The attempt ended, red and then green, and what it changed could be read back and committed.
  ghost predicate CommitsGreen(sandbox: CodeSandbox, first: nat, from: nat, t: Trace, script: TaskScript)
    reads sandbox
  {
    && !Throws(sandbox, first, t, script.author, script.implementer, script.refactor)
    && RedThenGreen(sandbox.runs, from)
    && sandbox.calls > 0 && sandbox.health(sandbox.calls - 1).Works? && script.commitWorks
  }

  // One task: the attempt, and the commit of what it changed.
  method WorkOnTask(sandbox: CodeSandbox, branch: Branch, ladder: nat, examples: seq<Path>, script: TaskScript,
                    ghost residue: set<Path>)
    returns (r: TurnResult, ghost t: Trace, ghost rest: set<Path>, ghost changed: seq<Path>)
    requires Agree(sandbox, branch, residue)
    modifies sandbox, branch
    ensures old(sandbox.runs) <= sandbox.runs && old(branch.commits) <= branch.commits
    ensures Paths(t.authored) <= Paths(Answered(script.author, ladder))
    ensures !r.Stopped? ==>
      Told(t, script.author, script.implementer, ladder, if r.Landed? then Done else AlreadySatisfied)
    ensures r.Skipped? <==> FindsSatisfied(sandbox, old(sandbox.calls), |old(sandbox.runs)|, t, script, ladder)
    ensures r.Landed? <==> CommitsGreen(sandbox, old(sandbox.calls), |old(sandbox.runs)|, t, script)
    ensures r.Landed? ==>
      t.unkept <= Offered(script.refactor) && changed == ChangedByRefactor(TouchedBy(t), FilesOf(script.refactor), t.ending)
    ensures !r.Stopped? ==> Agree(sandbox, branch, rest)
    ensures r.Stopped? ==> branch.tree == old(branch.tree) && branch.commits == old(branch.commits)
    ensures r.Skipped? ==>
      && changed == []
      && branch.tree == old(branch.tree) && branch.commits == old(branch.commits)
      && rest == residue + Paths(t.authored)
    ensures r.Landed? ==>
      && branch.commits == old(branch.commits) + [branch.tree]
      && SameOutside(old(branch.tree), branch.tree, Elements(changed))
      && Sound(old(sandbox.tree), |old(sandbox.runs)|, sandbox.runs, sandbox.tree, changed, t)
      && (t.late ==> LastBrokeBut(sandbox, 1))
      && rest == residue + Leftover(t) - Elements(changed)
      && (!t.late ==> PassedOutside(sandbox.runs, t.redAt, branch.tree, rest))
  {
    hide Sound, Overlay, Snapshot, Elements, Existing, Paths, Answered, Told, TakenOn, Offered, PassedOutside, SameOutside;
    hide WroteTests, NoneOf, RedThenGreen, Broke, Raised, ChangedByRefactor, TouchedBy, FilesOf;
    rest, changed := residue, [];
    var result, _, trace :=
      RunTaskTdd(sandbox, ladder, examples, script.affected, script.author, script.implementer, script.refactor);
    t := trace;
    if result.Threw? || result.outcome.Escalated? { return Stopped, t, rest, changed; }
    ghost var before := old(sandbox.tree);
    if result.outcome.AlreadySatisfied? {
      OverlayFrame(before, t.authored);
      AgreeStill(before, sandbox.tree, branch.tree, residue, Paths(t.authored));
      return Skipped, t, residue + Paths(t.authored), changed;
    }
    changed := result.changedPaths;
    TakenOnFacts(sandbox, t, script.refactor, changed);
    SoundFacts(before, |old(sandbox.runs)|, sandbox.runs, sandbox.tree, changed, t);
    AgreeStill(before, sandbox.tree, branch.tree, residue, Leftover(t) + Elements(changed));
    var ok, files := sandbox.ReadFiles(result.changedPaths);
    if !ok { return Stopped, t, rest, changed; }
    CommitAgrees(sandbox.tree, branch.tree, changed, residue + (Leftover(t) + Elements(changed)));
    assert Existing(sandbox.tree, changed) == Elements(changed) by { ElementsExist(sandbox.tree, changed); }
    ok := branch.Commit(files, script.commitWorks);
    if !ok { return Stopped, t, rest, changed; }
    rest := residue + Leftover(t) - Elements(changed);
    assert residue + (Leftover(t) + Elements(changed)) - Elements(changed) == rest;
    if !t.late { PassedOnBranch(sandbox.runs, t.redAt, sandbox.tree, branch.tree, t.unkept - Elements(changed), rest); }
    r := Landed;
  }

  // A sandbox call broke, `ago` calls before the last.
  ghost predicate LastBrokeBut(sandbox: CodeSandbox, ago: nat)
    reads sandbox
  {
    sandbox.calls > ago && sandbox.health(sandbox.calls - 1 - ago).Breaks?
  }

  lemma SoundFacts(before: Tree, from: nat, runs: seq<TestRun>, tree: Tree, changed: seq<Path>, t: Trace)
    requires Sound(before, from, runs, tree, changed, t)
    ensures SameOutside(before, tree, Leftover(t) + Elements(changed))
    ensures forall p | p in Elements(changed) :: p in tree
    ensures !t.late ==> PassedOutside(runs, t.redAt, tree, t.unkept - Elements(changed))
  {
  }

  // ---- The run over all tasks ----

  // One task that the run got past: it landed with these changes, or was satisfied already.
  datatype TaskStep = TaskStep(trace: Trace, landed: bool, changed: seq<Path>)

  // The paths written and never settled by a commit, from what a test setup may have left on.
  ghost function Residue(first: set<Path>, steps: seq<TaskStep>): set<Path> {
    if steps == [] then first
    else
      var last := steps[|steps| - 1];
      Residue(first, steps[..|steps| - 1])
      + (if last.landed then Leftover(last.trace) else Paths(last.trace.authored))
      - Elements(last.changed)
  }

  ghost function LandedIn(steps: seq<TaskStep>): nat {
    if steps == [] then 0
    else LandedIn(steps[..|steps| - 1]) + if steps[|steps| - 1].landed then 1 else 0
  }

  // Some passing run saw this tree, everywhere but at these paths.
  ghost predicate SeenPassing(runs: seq<TestRun>, tree: Tree, apart: set<Path>) {
    exists j | 0 <= j < |runs| :: runs[j].status.Passed? && SameOutside(runs[j].tree, tree, apart)
  }

  // The commit of task `i`, which follows `base` others and those of earlier tasks, holds what a passing
  // run saw outside the residue, if no refactor broke off.
  ghost predicate CommitSeen(first: set<Path>, steps: seq<TaskStep>, i: nat, runs: seq<TestRun>, commits: seq<Tree>,
                             base: nat) {
    i < |steps| && steps[i].landed && !steps[i].trace.late ==>
      && base + LandedIn(steps[..i]) < |commits|
      && SeenPassing(runs, commits[base + LandedIn(steps[..i])], Residue(first, steps[..i + 1]))
  }

  // With an empty residue, the commit is the very tree a passing run saw.
  lemma CleanCommitSeen(first: set<Path>, steps: seq<TaskStep>, i: nat, runs: seq<TestRun>, commits: seq<Tree>, base: nat)
    requires CommitSeen(first, steps, i, runs, commits, base)
    requires i < |steps| && steps[i].landed && !steps[i].trace.late && Residue(first, steps[..i + 1]) == {}
    ensures base + LandedIn(steps[..i]) < |commits|
    ensures exists j | 0 <= j < |runs| :: runs[j] == TestRun(commits[base + LandedIn(steps[..i])], Passed)
  {
    var commit := commits[base + LandedIn(steps[..i])];
    var j :| 0 <= j < |runs| && runs[j].status.Passed? && SameOutside(runs[j].tree, commit, {});
    AgreeEverywhere(runs[j].tree, commit);
    assert runs[j] == TestRun(commit, Passed);
  }

  // What the agents were made to write is all that a residue can hold.
  ghost predicate StepFrom(step: TaskStep, script: TaskScript, ladder: nat) {
    && Told(step.trace, script.author, script.implementer, ladder, if step.landed then Done else AlreadySatisfied)
    && (step.landed ==> step.trace.unkept <= Offered(script.refactor))
  }

  lemma CommitSeenKept(first: set<Path>, steps: seq<TaskStep>, step: TaskStep, i: nat, runs: seq<TestRun>, runs': seq<TestRun>,
                       commits: seq<Tree>, commits': seq<Tree>, base: nat)
    requires i < |steps| && CommitSeen(first, steps, i, runs, commits, base) && runs <= runs' && commits <= commits'
    ensures CommitSeen(first, steps + [step], i, runs', commits', base)
  {
    assert (steps + [step])[..i + 1] == steps[..i + 1] && (steps + [step])[..i] == steps[..i];
    if steps[i].landed && !steps[i].trace.late {
      SeenStill(runs, runs', commits[base + LandedIn(steps[..i])], Residue(first, steps[..i + 1]));
    }
  }

  lemma NewCommitSeen(first: set<Path>, steps: seq<TaskStep>, step: TaskStep, runs: seq<TestRun>, commits: seq<Tree>,
                      tree: Tree, base: nat)
    requires step.landed && base + LandedIn(steps) == |commits|
    requires !step.trace.late ==> PassedOutside(runs, step.trace.redAt, tree, Residue(first, steps + [step]))
    ensures CommitSeen(first, steps + [step], |steps|, runs, commits + [tree], base)
  {
    assert (steps + [step])[..|steps| + 1] == steps + [step] && (steps + [step])[..|steps|] == steps;
  }

  // The attempt at which the run over the tasks stopped, begun with this sandbox call and after so many runs.
  datatype Halt = Halt(t: Trace, first: nat, from: nat)

  ghost predicate Halts(sandbox: CodeSandbox, h: Halt, script: TaskScript, ladder: nat)
    reads sandbox
  {
    !FindsSatisfied(sandbox, h.first, h.from, h.t, script, ladder) && !CommitsGreen(sandbox, h.first, h.from, h.t, script)
  }

  // Between two tasks the sandbox and the branch agree on every path outside the residue; and what a
  // task's commit leaves on the branch is, outside the residue, what a passing run saw.
  method WorkOnTasks(sandbox: CodeSandbox, branch: Branch, ladder: nat, examples: seq<Path>, scripts: seq<TaskScript>,
                     ghost first: set<Path>)
    returns (finished: bool, ghost steps: seq<TaskStep>, ghost halt: Option<Halt>)
    requires Agree(sandbox, branch, first)
    modifies sandbox, branch
    ensures finished <==> halt.None?
    ensures halt.Some? ==> |steps| < |scripts| && Halts(sandbox, halt.value, scripts[|steps|], ladder)
    ensures |steps| <= |scripts| && (finished ==> |steps| == |scripts|)
    ensures old(branch.commits) <= branch.commits && old(sandbox.runs) <= sandbox.runs
    ensures |branch.commits| == |old(branch.commits)| + LandedIn(steps)
    ensures finished ==> Agree(sandbox, branch, Residue(first, steps))
    ensures forall i | 0 <= i < |steps| :: StepFrom(steps[i], scripts[i], ladder)
    ensures forall i: nat | i < |steps| ::
      CommitSeen(first, steps, i, sandbox.runs, branch.commits, |old(branch.commits)|)
  {
    hide Told, Offered, PassedOutside, Sound, SameOutside, CommitSeen, Elements, Paths, FindsSatisfied, CommitsGreen;
    finished, steps, halt := false, [], None;
    ghost var base := |branch.commits|;
    var i := 0;
    while i < |scripts|
      invariant i == |steps| <= |scripts|
      invariant |branch.commits| == base + LandedIn(steps)
      invariant old(branch.commits) <= branch.commits && old(sandbox.runs) <= sandbox.runs
      invariant Agree(sandbox, branch, Residue(first, steps))
      invariant forall k | 0 <= k < |steps| :: StepFrom(steps[k], scripts[k], ladder)
      invariant forall k: nat | k < |steps| :: CommitSeen(first, steps, k, sandbox.runs, branch.commits, base)
    {
      ghost var before, runs, commits, calls := steps, sandbox.runs, branch.commits, sandbox.calls;
      var r, t, rest, changed := WorkOnTask(sandbox, branch, ladder, examples, scripts[i], Residue(first, steps));
      ghost var step := TaskStep(t, r.Landed?, changed);
      forall k: nat | k < |before|
        ensures CommitSeen(first, before + [step], k, sandbox.runs, branch.commits, base)
        ensures CommitSeen(first, before, k, sandbox.runs, branch.commits, base)
      {
        CommitSeenKept(first, before, step, k, runs, sandbox.runs, commits, branch.commits, base);
        CommitSeenOnly(first, before, step, k, sandbox.runs, branch.commits, base);
      }
      if r.Stopped? {
        halt := Some(Halt(t, calls, |runs|));
        return;
      }
      steps := steps + [step];
      assert steps[..|steps| - 1] == before;
      EmptyElements();
      assert Residue(first, steps) == rest;
      if r.Landed? {
        NewCommitSeen(first, before, step, sandbox.runs, commits, branch.tree, base);
      } else {
        NoCommitSeen(first, before, step, sandbox.runs, branch.commits, base);
      }
      i := i + 1;
    }
    finished := true;
  }

  lemma CommitSeenOnly(first: set<Path>, steps: seq<TaskStep>, step: TaskStep, i: nat, runs: seq<TestRun>,
                       commits: seq<Tree>, base: nat)
    requires i < |steps| && CommitSeen(first, steps + [step], i, runs, commits, base)
    ensures CommitSeen(first, steps, i, runs, commits, base)
  {
    assert (steps + [step])[..i + 1] == steps[..i + 1] && (steps + [step])[..i] == steps[..i];
  }

  lemma NoCommitSeen(first: set<Path>, steps: seq<TaskStep>, step: TaskStep, runs: seq<TestRun>, commits: seq<Tree>,
                     base: nat)
    requires !step.landed
    ensures CommitSeen(first, steps + [step], |steps|, runs, commits, base)
  {
  }

  // ---- From the clone on ----

  // What the collaborators answer to a test setup that is called for.
  datatype SetupScript = SetupScript(
    t: Toolchain,
    hasRecipe: bool,
    action: Action,
    codec: Codec,
    texts: Path -> string,
    install: Install,
    commitWorks: bool)

  // The paths at which the two trees differ.
  function Differing(a: Tree, b: Tree): set<Path> {
    set p | p in a.Keys + b.Keys && !SameAt(a, b, p)
  }

  lemma DifferingExactly(a: Tree, b: Tree)
    ensures SameOutside(a, b, Differing(a, b))
    ensures forall p :: p in Differing(a, b) <==> !SameAt(a, b, p)
  {
  }

  // What a committed set-up leaves different: what the install changed in the clone, but for what the
  // commit took over.
  function SetupResidue(clone: Tree, after: Tree, changed: seq<Path>): set<Path> {
    Differing(after, clone) - Existing(after, changed)
  }

  lemma SetupDiffersExactly(clone: Tree, after: Tree, changed: seq<Path>)
    ensures var committed := Overlay(clone, Snapshot(after, changed));
      forall p :: p in SetupResidue(clone, after, changed) <==> !SameAt(after, committed, p)
  {
    var committed := Overlay(clone, Snapshot(after, changed));
    DifferingExactly(after, clone);
    CommitAgrees(after, clone, changed, Differing(after, clone));
    forall p ensures p in SetupResidue(clone, after, changed) <==> !SameAt(after, committed, p) {
      if p !in Existing(after, changed) { assert SameAt(clone, committed, p); }
    }
  }

  // The recipe is there, every call from `first` on works, the install succeeds and the suite passes.
  predicate SetsUp(health: nat -> CallOutcome, verdicts: nat -> TestStatus, first: nat, s: SetupScript) {
    && s.hasRecipe && s.install.ok && verdicts(first + 4).Passed? && s.commitWorks
    && health(first).Works? && health(first + 1).Works? && health(first + 2).Works? && health(first + 3).Works?
    && health(first + 4).Works?
  }

  // A set-up, committed once its suite is green. Whatever the checkout held before, sandbox and branch then
  // differ at exactly what the set-up's install left different from the branch and the commit did not take
  // over.
  method SetUp(sandbox: CodeSandbox, branch: Branch, s: SetupScript)
    returns (ok: bool, ghost residue: set<Path>, ghost changed: seq<Path>)
    requires !s.action.NoAction?
    modifies sandbox, branch
    ensures old(sandbox.runs) <= sandbox.runs
    ensures ok <==> SetsUp(sandbox.health, sandbox.verdicts, old(sandbox.calls), s)
    ensures !ok ==> branch.tree == old(branch.tree) && branch.commits == old(branch.commits)
    ensures ok ==> forall p :: p in changed <==>
      || p in PathList(RecipeFiles(s.t, s.action, ContentAt(old(sandbox.tree), s.t.Manifest()), s.codec, s.texts))
      || p in InstallArtifacts(s.t)
    ensures ok ==>
      && branch.commits == old(branch.commits) + [branch.tree]
      && sandbox.tree == s.install.after && residue == SetupResidue(old(branch.tree), sandbox.tree, changed)
      && (forall p :: p in residue <==> !SameAt(sandbox.tree, branch.tree, p))
      && SeenPassing(sandbox.runs, branch.tree, residue)
  {
    hide Overlay, Snapshot, Existing, SetupResidue, RecipeFiles, PathList, InstallArtifacts, WrittenBy, ContentAt;
    ok, residue, changed := false, {}, [];
    ghost var clone := branch.tree;
    var result, _ := RunBootstrap(s.t, s.hasRecipe, s.action, sandbox, s.codec, s.texts, s.install);
    if !result.VerifiedGreen? { return; }
    assert sandbox.runs[|sandbox.runs| - 1] == TestRun(sandbox.tree, Passed);
    changed := result.changedPaths;
    var read, files := sandbox.ReadFiles(result.changedPaths);
    if !read { return; }
    SetupDiffersExactly(clone, s.install.after, changed);
    residue := SetupResidue(clone, s.install.after, changed);
    ok := branch.Commit(files, s.commitWorks);
  }

  // The sandbox's part of implementing a plan, from the clone on. Opening the session clones the branch and
  // runs the install command, which leaves `installed`. Then comes the set-up, if one is called for, and then
  // the tasks. They start from exactly the paths at which sandbox and branch differ by then.
  method ImplementInSandbox(branch: Branch, installed: Tree, health: nat -> CallOutcome, verdicts: nat -> TestStatus,
                            setup: Option<SetupScript>, ladder: nat, examples: seq<Path>, scripts: seq<TaskScript>)
    returns (finished: bool, sandbox: CodeSandbox, ghost first: set<Path>, ghost steps: seq<TaskStep>, ghost halt: Option<Halt>)
    requires branch.commits == [] && (setup.Some? ==> !setup.value.action.NoAction?)
    modifies branch
    ensures fresh(sandbox)
    ensures setup.Some? ==> (branch.commits != [] <==> SetsUp(health, verdicts, 0, setup.value))
    ensures finished <==> halt.None? && (setup.Some? ==> branch.commits != [])
    ensures halt.Some? ==> |steps| < |scripts| && Halts(sandbox, halt.value, scripts[|steps|], ladder)
    ensures finished ==> |steps| == |scripts|
    ensures setup.None? ==> forall p :: p in first <==> !SameAt(installed, old(branch.tree), p)
    ensures setup.Some? && branch.commits != [] ==>
      && SeenPassing(sandbox.runs, branch.commits[0], first)
      && forall p :: p in first <==> !SameAt(setup.value.install.after, branch.commits[0], p)
    ensures finished ==> Agree(sandbox, branch, Residue(first, steps))
    ensures var base := if setup.Some? then 1 else 0;
      && (branch.commits != [] ==> |branch.commits| == base + LandedIn(steps))
      && (forall i: nat | i < |steps| :: CommitSeen(first, steps, i, sandbox.runs, branch.commits, base))
  {
    hide CommitSeen, Residue, StepFrom, Differing, SetsUp, Halts;
    sandbox := new CodeSandbox(installed, health, verdicts);
    DifferingExactly(installed, branch.tree);
    finished, first, steps, halt := false, Differing(installed, branch.tree), [], None;
    if setup.Some? {
      var ok, residue, _ := SetUp(sandbox, branch, setup.value);
      if !ok { return; }
      first := residue;
    }
    ghost var runs, commits := sandbox.runs, branch.commits;
    finished, steps, halt := WorkOnTasks(sandbox, branch, ladder, examples, scripts, first);
    if setup.Some? { SeenStill(runs, sandbox.runs, commits[0], first); }
  }

  lemma SeenStill(runs: seq<TestRun>, more: seq<TestRun>, tree: Tree, apart: set<Path>)
    requires SeenPassing(runs, tree, apart) && runs <= more
    ensures SeenPassing(more, tree, apart)
  {
    var j :| 0 <= j < |runs| && runs[j].status.Passed? && SameOutside(runs[j].tree, tree, apart);
    assert more[j] == runs[j];
  }
}
