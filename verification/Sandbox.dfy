// An open code session: a file tree that is written, read back and tested. Any call may break; a write
// that breaks has written some of its files, and may have left one of them torn.
module Sandbox {
  import opened Wrappers

  type Path = string

  type Tree = map<Path, string>

  datatype FileEdit = FileEdit(path: Path, content: string)

  datatype TestStatus = Passed | Failed | Errored

  // What one run of the suite saw, and how it ended.
  datatype TestRun = TestRun(tree: Tree, status: TestStatus)

  // A call that breaks while it writes has written so many files whole, and may leave the next one holding
  // something else.
  datatype CallOutcome = Works | Breaks(written: nat, torn: Option<string>)

  // ---- Trees ----

  // Files are written one by one; a later one with the same path wins.
  function Overlay(t: Tree, files: seq<FileEdit>): Tree {
    if files == [] then t
    else
      var last := files[|files| - 1];
      Overlay(t, files[..|files| - 1])[last.path := last.content]
  }

  // What a write of these files leaves when it breaks: the first of them, the last of those possibly torn.
  predicate PartlyWritten(files: seq<FileEdit>, written: seq<FileEdit>) {
    && |written| <= |files|
    && (forall i | 0 <= i < |written| - 1 :: written[i] == files[i])
    && (written != [] ==> written[|written| - 1].path == files[|written| - 1].path)
  }

  // What a write of these files has written when it ends so.
  function WrittenBy(files: seq<FileEdit>, outcome: CallOutcome): seq<FileEdit> {
    if outcome.Works? || outcome.written >= |files| then files
    else
      var whole := files[..outcome.written];
      if outcome.torn.Some? then whole + [FileEdit(files[outcome.written].path, outcome.torn.value)] else whole
  }

  lemma WrittenByPartly(files: seq<FileEdit>, outcome: CallOutcome)
    ensures PartlyWritten(files, WrittenBy(files, outcome))
  {
  }

  lemma PartlyWrittenPaths(files: seq<FileEdit>, written: seq<FileEdit>)
    requires PartlyWritten(files, written)
    ensures Paths(written) <= Paths(files)
  {
    forall p | p in Paths(written) ensures p in Paths(files) {
      var i :| 0 <= i < |written| && written[i].path == p;
      assert files[i].path == p;
    }
  }

  function Paths(files: seq<FileEdit>): set<Path> {
    set i | 0 <= i < |files| :: files[i].path
  }

  function Elements(paths: seq<Path>): set<Path> {
    set i | 0 <= i < |paths| :: paths[i]
  }

  // Both trees hold the same at this path, or both hold nothing.
  predicate SameAt(a: Tree, b: Tree, p: Path) {
    (p in a <==> p in b) && (p in a ==> a[p] == b[p])
  }

  ghost predicate SameOutside(a: Tree, b: Tree, paths: set<Path>) {
    forall p | p !in paths :: SameAt(a, b, p)
  }

  lemma {:induction false} OverlayFrame(t: Tree, files: seq<FileEdit>)
    ensures SameOutside(t, Overlay(t, files), Paths(files))
    ensures forall p | p in Paths(files) || p in t :: p in Overlay(t, files)
  {
    if files != [] {
      var rest := files[..|files| - 1];
      OverlayFrame(t, rest);
      PathsSplit(files);
    }
  }

  lemma PathsSplit(files: seq<FileEdit>)
    requires files != []
    ensures Paths(files) == Paths(files[..|files| - 1]) + {files[|files| - 1].path}
  {
    var rest := files[..|files| - 1];
    forall p | p in Paths(files) ensures p in Paths(rest) + {files[|files| - 1].path} {
      var i :| 0 <= i < |files| && files[i].path == p;
      if i < |rest| { assert rest[i].path == p; }
    }
    forall p | p in Paths(rest) ensures p in Paths(files) {
      var i :| 0 <= i < |rest| && rest[i].path == p;
      assert files[i].path == p;
    }
    assert files[|files| - 1].path in Paths(files);
  }

  lemma {:induction false} OverlayAppend(t: Tree, a: seq<FileEdit>, b: seq<FileEdit>)
    ensures Overlay(Overlay(t, a), b) == Overlay(t, a + b)
    decreases |b|
  {
    if b != [] {
      assert (a + b)[..|a + b| - 1] == a + b[..|b| - 1];
      OverlayAppend(t, a, b[..|b| - 1]);
    } else {
      assert a + b == a;
    }
  }

  lemma PathsAppend(a: seq<FileEdit>, b: seq<FileEdit>)
    ensures Paths(a + b) == Paths(a) + Paths(b)
  {
    forall p | p in Paths(a) ensures p in Paths(a + b) {
      var i :| 0 <= i < |a| && a[i].path == p;
      assert (a + b)[i].path == p;
    }
    forall p | p in Paths(b) ensures p in Paths(a + b) {
      var i :| 0 <= i < |b| && b[i].path == p;
      assert (a + b)[|a| + i].path == p;
    }
  }

  // The files among `paths` that exist, with what they hold.
  function Snapshot(t: Tree, paths: seq<Path>): seq<FileEdit> {
    if paths == [] then []
    else
      var p := paths[|paths| - 1];
      Snapshot(t, paths[..|paths| - 1]) + if p in t then [FileEdit(p, t[p])] else []
  }

  function Existing(t: Tree, paths: seq<Path>): set<Path> {
    set p | p in Elements(paths) && p in t
  }

  lemma ElementsSplit(paths: seq<Path>)
    requires paths != []
    ensures Elements(paths) == Elements(paths[..|paths| - 1]) + {paths[|paths| - 1]}
  {
    var rest := paths[..|paths| - 1];
    forall q | q in Elements(paths) ensures q in Elements(rest) + {paths[|paths| - 1]} {
      var i :| 0 <= i < |paths| && paths[i] == q;
      if i < |rest| { assert rest[i] == q; }
    }
    forall q | q in Elements(rest) ensures q in Elements(paths) {
      var i :| 0 <= i < |rest| && rest[i] == q;
      assert paths[i] == q;
    }
    assert paths[|paths| - 1] in Elements(paths);
  }

  lemma {:induction false} SnapshotPaths(t: Tree, paths: seq<Path>)
    ensures Paths(Snapshot(t, paths)) == Existing(t, paths)
    ensures forall i | 0 <= i < |Snapshot(t, paths)| ::
      var e := Snapshot(t, paths)[i]; e.path in t && e.content == t[e.path]
  {
    if paths != [] {
      var rest, p := paths[..|paths| - 1], paths[|paths| - 1];
      SnapshotPaths(t, rest);
      ElementsSplit(paths);
      if p in t {
        PathsAppend(Snapshot(t, rest), [FileEdit(p, t[p])]);
        assert Paths([FileEdit(p, t[p])]) == {p} by { assert [FileEdit(p, t[p])][0].path == p; }
        assert Existing(t, paths) == Existing(t, rest) + {p};
      } else {
        assert Existing(t, paths) == Existing(t, rest);
        assert Snapshot(t, paths) == Snapshot(t, rest);
      }
    }
  }

  // Writing files with the contents `t` gives them makes the tree agree with `t` there.
  lemma {:induction false} OverlayRestores(now: Tree, t: Tree, files: seq<FileEdit>)
    requires forall i | 0 <= i < |files| :: files[i].path in t && files[i].content == t[files[i].path]
    ensures forall p | p in Paths(files) :: SameAt(Overlay(now, files), t, p)
  {
    if files != [] {
      OverlayRestores(now, t, files[..|files| - 1]);
      PathsSplit(files);
    }
  }

  // ---- The session ----

  class CodeSandbox {
    var tree: Tree
    var calls: nat
    const health: nat -> CallOutcome
    const verdicts: nat -> TestStatus
    ghost var runs: seq<TestRun>

    constructor (checkout: Tree, health: nat -> CallOutcome, verdicts: nat -> TestStatus)
      ensures tree == checkout && runs == [] && calls == 0
      ensures this.health == health && this.verdicts == verdicts
    {
      tree := checkout;
      calls := 0;
      this.health := health;
      this.verdicts := verdicts;
      runs := [];
    }

    method WriteFiles(files: seq<FileEdit>) returns (ok: bool)
      modifies this`tree, this`calls
      ensures calls == old(calls) + 1 && ok == health(old(calls)).Works?
      ensures tree == Overlay(old(tree), if ok then files else WrittenBy(files, health(old(calls))))
      ensures !ok ==> PartlyWritten(files, WrittenBy(files, health(old(calls))))
    {
      var outcome := health(calls);
      calls := calls + 1;
      WrittenByPartly(files, outcome);
      var i := 0;
      while i < |files|
        invariant i <= |files| && tree == Overlay(old(tree), files[..i])
        invariant calls == old(calls) + 1
        invariant outcome.Breaks? ==> i <= outcome.written
      {
        ghost var whole := files[..i];
        if outcome.Breaks? && outcome.written == i {
          if outcome.torn.Some? {
            ghost var torn := FileEdit(files[i].path, outcome.torn.value);
            assert (whole + [torn])[..|whole + [torn]| - 1] == whole;
            tree := tree[files[i].path := outcome.torn.value];
          }
          return false;
        }
        assert files[..i + 1][..|files[..i + 1]| - 1] == whole;
        tree := tree[files[i].path := files[i].content];
        i := i + 1;
      }
      assert files[..i] == files;
      return outcome.Works?;
    }

    method RunTests() returns (status: Option<TestStatus>)
      modifies this`calls, this`runs
      ensures calls == old(calls) + 1 && (status.None? <==> health(old(calls)).Breaks?)
      ensures status.Some? ==> status.value == verdicts(calls) && runs == old(runs) + [TestRun(tree, status.value)]
      ensures status.None? ==> runs == old(runs)
    {
      var outcome := health(calls);
      calls := calls + 1;
      if outcome.Breaks? { return None; }
      status := Some(verdicts(calls));
      runs := runs + [TestRun(tree, status.value)];
    }

    // A set-up command leaves whatever it leaves in the checkout, and exits well or not.
    method RunSetup(after: Tree, exitsWell: bool) returns (exit: Option<bool>)
      modifies this`calls, this`tree
      ensures calls == old(calls) + 1 && (exit.None? <==> health(old(calls)).Breaks?)
      ensures tree == after && (exit.Some? ==> exit.value == exitsWell)
    {
      var outcome := health(calls);
      calls := calls + 1;
      tree := after;
      exit := if outcome.Works? then Some(exitsWell) else None;
    }

    // Files that do not exist are left out.
    method ReadFiles(paths: seq<Path>) returns (ok: bool, files: seq<FileEdit>)
      modifies this`calls
      ensures calls == old(calls) + 1 && ok == health(old(calls)).Works?
      ensures ok ==> files == Snapshot(tree, paths)
    {
      var outcome := health(calls);
      calls := calls + 1;
      if outcome.Breaks? { return false, []; }
      files := [];
      for i := 0 to |paths|
        invariant files == Snapshot(tree, paths[..i])
      {
        assert paths[..i + 1][..|paths[..i + 1]| - 1] == paths[..i];
        if paths[i] in tree { files := files + [FileEdit(paths[i], tree[paths[i]])]; }
      }
      assert paths[..|paths|] == paths;
      ok := true;
    }
  }
}
