// The language packs: which files are tests, whether a repository has a working test runner, and the
// recipe that gives it one.
module Toolchain {
  import opened Wrappers
  import opened Text
  import opened Branch
  import opened Sandbox

  // ---- JSON, as far as a manifest is looked into ----

  datatype Json = Null | Bool(b: bool) | Number(n: int) | Str(s: string) | Arr(items: seq<Json>) | Obj(members: map<string, Json>)

  // How manifests are parsed and printed.
  datatype Codec = Codec(parse: string -> Option<Json>, render: Json -> string)

  // Parsing undoes printing.
  ghost predicate RoundTrips(codec: Codec) {
    forall j :: codec.parse(codec.render(j) + "\n") == Some(j)
  }

  function Indices(n: nat): set<string> {
    set i: nat | i < n :: Decimal(i)
  }

  predicate IsIndex(k: string, n: nat) {
    AllDigits(k) && Value(k) < n
  }

  // The members an object spread copies: an object's own, the indices of an array or a string.
  function Spread(j: Option<Json>): map<string, Json> {
    match j
    case Some(Obj(members)) => members
    case Some(Arr(items)) => map k | k in Indices(|items|) && IsIndex(k, |items|) :: items[Value(k)]
    case Some(Str(s)) => map k | k in Indices(|s|) && IsIndex(k, |s|) :: Str([s[Value(k)]])
    case _ => map[]
  }

  function Member(j: Json, name: string): Option<Json> {
    if j.Obj? && name in j.members then Some(j.members[name]) else None
  }

  predicate Falsy(j: Json) {
    j.Null? || j == Bool(false) || j == Number(0) || j == Str("")
  }

  // ---- Paths ----

  type Reader = Path -> Option<string>

  predicate IsNamed(path: Path, name: string) {
    path == name || EndsWith(path, "/" + name)
  }

  // The first file of that name, at the root or anywhere below it.
  function FindFile(files: seq<Path>, name: string): Option<Path> {
    if files == [] then None
    else if IsNamed(files[0], name) then Some(files[0])
    else FindFile(files[1..], name)
  }

  predicate HasFile(files: seq<Path>, name: string) {
    FindFile(files, name).Some?
  }

  lemma {:induction false} FindFileIsFirst(files: seq<Path>, name: string)
    ensures match FindFile(files, name)
      case None => forall i | 0 <= i < |files| :: !IsNamed(files[i], name)
      case Some(path) =>
        exists i | 0 <= i < |files| ::
          files[i] == path && IsNamed(path, name) && forall k | 0 <= k < i :: !IsNamed(files[k], name)
  {
    if files != [] && !IsNamed(files[0], name) {
      FindFileIsFirst(files[1..], name);
      var rest := FindFile(files[1..], name);
      if rest.Some? {
        var i :| 0 <= i < |files[1..]| && files[1..][i] == rest.value &&
                 forall k | 0 <= k < i :: !IsNamed(files[1..][k], name);
        assert files[i + 1] == rest.value;
        forall k | 0 <= k < i + 1 ensures !IsNamed(files[k], name) {
          if k > 0 { assert files[1..][k - 1] == files[k]; }
        }
      }
    }
  }

  // A directory of one of these names lies on the path.
  predicate InDirectory(path: Path, names: seq<string>) {
    exists n, i: nat | 0 <= n < |names| && i < |path| ::
      (i == 0 || path[i - 1] == '/') && OccursAt(path, names[n] + "/", i)
  }

  predicate EndsWithAny(path: Path, suffixes: seq<string>) {
    exists n | 0 <= n < |suffixes| :: EndsWith(path, suffixes[n])
  }

  const JS_EXTENSIONS := [
    ".js", ".jsx", ".ts", ".tsx", ".cjs", ".cjsx", ".cts", ".ctsx", ".mjs", ".mjsx", ".mts", ".mtsx"]

  predicate IsJsTestSuffix(path: Path) {
    exists n | 0 <= n < |JS_EXTENSIONS| ::
      EndsWith(path, ".test" + JS_EXTENSIONS[n]) || EndsWith(path, ".spec" + JS_EXTENSIONS[n])
  }

  // test_*.py, at the root or below.
  predicate IsPrefixedPythonTest(path: Path) {
    exists i: nat | i + 8 <= |path| ::
      && (i == 0 || path[i - 1] == '/') && OccursAt(path, "test_", i) && EndsWith(path, ".py")
      && forall k | i + 5 <= k < |path| - 3 :: path[k] != '/'
  }

  // ---- Contents ----

  // The word `test` stands at `at`, not as the tail of a longer word, and a colon after spaces only.
  predicate TestBlockAt(content: string, at: nat, colon: nat) {
    && at + 4 <= colon < |content|
    && OccursAt(content, "test", at) && (at == 0 || !IsWord(content[at - 1]))
    && content[colon] == ':'
    && forall k | at + 4 <= k < colon :: IsSpace(content[k])
  }

  predicate HasTestBlock(content: string) {
    exists at: nat, colon: nat | at < |content| && colon < |content| :: TestBlockAt(content, at, colon)
  }

  // A table of pyproject.toml, a section of setup.cfg, and either kind of section in tox.ini.
  predicate HasPytestTable(content: string) {
    Contains(content, "[tool.pytest")
  }

  predicate HasPytestSection(content: string) {
    Contains(content, "[tool:pytest]")
  }

  predicate HasToxSection(content: string) {
    Contains(content, "[pytest]") || HasPytestSection(content)
  }

  predicate ContainsIgnoringCase(s: string, word: string) {
    exists i: nat | i <= |s| :: OccursAtIgnoringCase(s, word, i)
  }

  predicate IsBlank(s: string) {
    forall i | 0 <= i < |s| :: IsSpace(s[i])
  }

  // ---- The packs ----

  const DEDICATED_CONFIGS := [
    "vitest.config.ts", "vitest.config.js", "vitest.config.mts", "vitest.config.mjs",
    "jest.config.ts", "jest.config.js", "jest.config.cjs", "jest.config.mjs", "jest.config.json"]
  const BUNDLER_CONFIGS := ["vite.config.ts", "vite.config.js"]

  datatype Toolchain = TypescriptJavascript | Python {

    function Manifest(): string {
      if TypescriptJavascript? then "package.json" else "pyproject.toml"
    }

    predicate IsTestFile(path: Path) {
      match this
      case TypescriptJavascript =>
        (InDirectory(path, ["test", "tests", "__tests__"]) && EndsWithAny(path, JS_EXTENSIONS)) || IsJsTestSuffix(path)
      case Python =>
        || (InDirectory(path, ["test", "tests"]) && EndsWith(path, ".py"))
        || IsPrefixedPythonTest(path)
        || EndsWith(path, "_test.py")
        || IsNamed(path, "conftest.py")
    }
  }

  predicate AnyHasFile(files: seq<Path>, names: seq<string>) {
    exists n | 0 <= n < |names| :: HasFile(files, names[n])
  }

  function ContentOf(files: seq<Path>, name: string, read: Reader): Option<string> {
    var path := FindFile(files, name);
    if path.Some? then read(path.value) else None
  }

  predicate AnyMatches(files: seq<Path>, names: seq<string>, read: Reader, marks: string -> bool) {
    exists n | 0 <= n < |names| ::
      ContentOf(files, names[n], read).Some? && marks(ContentOf(files, names[n], read).value)
  }

  // The manifest is an object that names a test script, jest, or one of the two runners.
  predicate ManifestHasRunner(pkg: Json) {
    var script := if Member(pkg, "scripts").Some? then Member(Member(pkg, "scripts").value, "test") else None;
    var deps := Spread(Member(pkg, "devDependencies")) + Spread(Member(pkg, "dependencies"));
    || (script.Some? && script.value.Str? && !IsBlank(script.value.s)
        && !ContainsIgnoringCase(script.value.s, "no test specified"))
    || Member(pkg, "jest").Some?
    || "vitest" in deps || "jest" in deps
  }

  function ParsedManifest(files: seq<Path>, read: Reader, codec: Codec): Option<Json> {
    var raw := ContentOf(files, "package.json", read);
    if raw.None? || raw.value == "" then None
    else
      var pkg := codec.parse(raw.value);
      if pkg.Some? && Falsy(pkg.value) then None else pkg
  }

  predicate HasTestRunner(t: Toolchain, files: seq<Path>, read: Reader, codec: Codec) {
    match t
    case TypescriptJavascript =>
      || AnyHasFile(files, DEDICATED_CONFIGS)
      || AnyMatches(files, BUNDLER_CONFIGS, read, HasTestBlock)
      || (var pkg := ParsedManifest(files, read, codec); pkg.Some? && ManifestHasRunner(pkg.value))
    case Python =>
      || HasFile(files, "pytest.ini") || HasFile(files, "conftest.py")
      || AnyMatches(files, ["pyproject.toml"], read, HasPytestTable)
      || AnyMatches(files, ["setup.cfg"], read, HasPytestSection)
      || AnyMatches(files, ["tox.ini"], read, HasToxSection)
  }

  // The early returns of the detection, one signal after the other.
  method DetectRunner(t: Toolchain, files: seq<Path>, read: Reader, codec: Codec) returns (found: bool)
    ensures found == HasTestRunner(t, files, read, codec)
  {
    hide HasFile, ContentOf, HasTestBlock, ManifestHasRunner, ParsedManifest, HasPytestTable, HasPytestSection, HasToxSection;
    match t {
      case TypescriptJavascript =>
        var i := 0;
        while i < |DEDICATED_CONFIGS|
          invariant i <= |DEDICATED_CONFIGS|
          invariant forall n | 0 <= n < i :: !HasFile(files, DEDICATED_CONFIGS[n])
        {
          if HasFile(files, DEDICATED_CONFIGS[i]) { return true; }
          i := i + 1;
        }
        i := 0;
        while i < |BUNDLER_CONFIGS|
          invariant i <= |BUNDLER_CONFIGS|
          invariant forall n | 0 <= n < i :: var raw := ContentOf(files, BUNDLER_CONFIGS[n], read);
            !(raw.Some? && HasTestBlock(raw.value))
        {
          var raw := ContentOf(files, BUNDLER_CONFIGS[i], read);
          if raw.Some? && HasTestBlock(raw.value) { return true; }
          i := i + 1;
        }
        var pkg := ParsedManifest(files, read, codec);
        found := pkg.Some? && ManifestHasRunner(pkg.value);
      case Python =>
        if HasFile(files, "pytest.ini") || HasFile(files, "conftest.py") { return true; }
        found :=
          || AnyMatches(files, ["pyproject.toml"], read, HasPytestTable)
          || AnyMatches(files, ["setup.cfg"], read, HasPytestSection)
          || AnyMatches(files, ["tox.ini"], read, HasToxSection);
    }
  }

  // ---- Verdict ----

  datatype Action = NoAction | FullSetup | RunnerOnly

  function DetectTestSetup(t: Toolchain, files: seq<Path>, read: Reader, codec: Codec): Action {
    if HasTestRunner(t, files, read, codec) then NoAction
    else if exists i | 0 <= i < |files| :: t.IsTestFile(files[i]) then RunnerOnly
    else FullSetup
  }

  // The first of the listed files that has this name.
  predicate IsFirst(files: seq<Path>, i: nat, name: string) {
    i < |files| && IsNamed(files[i], name) && forall k | 0 <= k < i :: !IsNamed(files[k], name)
  }

  // The first file of this name can be read, and its text says so.
  ghost predicate Shows(files: seq<Path>, name: string, read: Reader, says: string -> bool) {
    exists i: nat :: IsFirst(files, i, name) && read(files[i]).Some? && says(read(files[i]).value)
  }

  ghost predicate Lists(files: seq<Path>, name: string) {
    exists i | 0 <= i < |files| :: IsNamed(files[i], name)
  }

  // Said of a manifest's text.
  predicate NamesRunner(text: string, codec: Codec) {
    && text != "" && codec.parse(text).Some?
    && !Falsy(codec.parse(text).value) && ManifestHasRunner(codec.parse(text).value)
  }

  // A runner's own configuration is listed, or a file that configures other things too says that it runs tests.
  ghost predicate ShowsRunner(t: Toolchain, files: seq<Path>, read: Reader, codec: Codec) {
    match t
    case TypescriptJavascript =>
      || (exists n | 0 <= n < |DEDICATED_CONFIGS| :: Lists(files, DEDICATED_CONFIGS[n]))
      || Shows(files, "vite.config.ts", read, HasTestBlock) || Shows(files, "vite.config.js", read, HasTestBlock)
      || exists i: nat :: IsFirst(files, i, "package.json") && read(files[i]).Some? && NamesRunner(read(files[i]).value, codec)
    case Python =>
      || Lists(files, "pytest.ini") || Lists(files, "conftest.py")
      || Shows(files, "pyproject.toml", read, HasPytestTable)
      || Shows(files, "setup.cfg", read, HasPytestSection)
      || Shows(files, "tox.ini", read, HasToxSection)
  }

  lemma FirstIff(files: seq<Path>, name: string, read: Reader, says: string -> bool)
    ensures HasFile(files, name) <==> Lists(files, name)
    ensures (ContentOf(files, name, read).Some? && says(ContentOf(files, name, read).value)) <==> Shows(files, name, read, says)
  {
    hide IsNamed;
    FindFileIsFirst(files, name);
    if FindFile(files, name).Some? {
      var i :| 0 <= i < |files| && files[i] == FindFile(files, name).value && IsFirst(files, i, name);
      assert forall k: nat | IsFirst(files, k, name) :: k == i;
    }
  }

  lemma RunnerIff(t: Toolchain, files: seq<Path>, read: Reader, codec: Codec)
    ensures HasTestRunner(t, files, read, codec) <==> ShowsRunner(t, files, read, codec)
  {
    hide HasFile, Lists, ContentOf, Shows, HasTestBlock, ParsedManifest, NamesRunner, ManifestHasRunner;
    match t {
      case TypescriptJavascript =>
        forall n | 0 <= n < |DEDICATED_CONFIGS| ensures HasFile(files, DEDICATED_CONFIGS[n]) <==> Lists(files, DEDICATED_CONFIGS[n]) {
          FirstIff(files, DEDICATED_CONFIGS[n], read, HasTestBlock);
        }
        FirstIff(files, BUNDLER_CONFIGS[0], read, HasTestBlock);
        FirstIff(files, BUNDLER_CONFIGS[1], read, HasTestBlock);
        FirstManifest(files, read, codec);
      case Python =>
        PytestIff(files, read);
    }
  }

  lemma FirstManifest(files: seq<Path>, read: Reader, codec: Codec)
    ensures var pkg := ParsedManifest(files, read, codec);
      pkg.Some? && ManifestHasRunner(pkg.value) <==>
        exists i: nat :: IsFirst(files, i, "package.json") && read(files[i]).Some? && NamesRunner(read(files[i]).value, codec)
  {
    hide IsNamed, ManifestHasRunner, Falsy;
    FindFileIsFirst(files, "package.json");
    if FindFile(files, "package.json").Some? {
      var i :| 0 <= i < |files| && files[i] == FindFile(files, "package.json").value && IsFirst(files, i, "package.json");
      assert forall k: nat | IsFirst(files, k, "package.json") :: k == i;
    }
  }

  lemma MatchesOne(files: seq<Path>, name: string, read: Reader, marks: string -> bool)
    ensures AnyMatches(files, [name], read, marks) <==>
      ContentOf(files, name, read).Some? && marks(ContentOf(files, name, read).value)
  {
    hide ContentOf;
    assert [name][0] == name;
  }

  lemma PytestIff(files: seq<Path>, read: Reader)
    ensures HasFile(files, "pytest.ini") <==> Lists(files, "pytest.ini")
    ensures HasFile(files, "conftest.py") <==> Lists(files, "conftest.py")
    ensures AnyMatches(files, ["pyproject.toml"], read, HasPytestTable) <==> Shows(files, "pyproject.toml", read, HasPytestTable)
    ensures AnyMatches(files, ["setup.cfg"], read, HasPytestSection) <==> Shows(files, "setup.cfg", read, HasPytestSection)
    ensures AnyMatches(files, ["tox.ini"], read, HasToxSection) <==> Shows(files, "tox.ini", read, HasToxSection)
  {
    hide HasFile, Lists, ContentOf, Shows, Contains, AnyMatches;
    MatchesOne(files, "pyproject.toml", read, HasPytestTable);
    MatchesOne(files, "setup.cfg", read, HasPytestSection);
    MatchesOne(files, "tox.ini", read, HasToxSection);
    FirstIff(files, "pytest.ini", read, HasPytestSection);
    FirstIff(files, "conftest.py", read, HasPytestSection);
    FirstIff(files, "pyproject.toml", read, HasPytestTable);
    FirstIff(files, "setup.cfg", read, HasPytestSection);
    FirstIff(files, "tox.ini", read, HasToxSection);
  }

  // Which of the three is done: nothing exactly if something shows a runner; otherwise tests of one's own are
  // left alone exactly if there are any.
  lemma VerdictIff(t: Toolchain, files: seq<Path>, read: Reader, codec: Codec)
    ensures var action := DetectTestSetup(t, files, read, codec);
      var tested := exists i | 0 <= i < |files| :: t.IsTestFile(files[i]);
      && (action.NoAction? <==> ShowsRunner(t, files, read, codec))
      && (action.RunnerOnly? <==> !ShowsRunner(t, files, read, codec) && tested)
      && (action.FullSetup? <==> !ShowsRunner(t, files, read, codec) && !tested)
  {
    hide HasTestRunner, ShowsRunner;
    RunnerIff(t, files, read, codec);
  }

  // ---- The recipe ----

  function ExamplePath(t: Toolchain): Path {
    if t.TypescriptJavascript? then "test/tsukinome-setup.test.ts" else "tests/test_tsukinome_setup.py"
  }

  function ConfigPaths(t: Toolchain): seq<Path> {
    if t.TypescriptJavascript? then ["vitest.config.ts"] else ["pytest.ini", "conftest.py"]
  }

  function InstallArtifacts(t: Toolchain): seq<Path> {
    if t.TypescriptJavascript? then ["package.json", "package-lock.json"] else []
  }

  // The manifest with its test script set, everything else kept.
  function WithTestScript(pkg: Json): Json {
    var scripts := Spread(Member(pkg, "scripts"))["test" := Str("vitest run")];
    Obj(Spread(Some(pkg))["scripts" := Obj(scripts)])
  }

  // `texts` gives the fixed text of each file of the recipe.
  function FixedFiles(paths: seq<Path>, texts: Path -> string): seq<FileEdit> {
    seq(|paths|, i requires 0 <= i < |paths| => FileEdit(paths[i], texts(paths[i])))
  }

  // The manifest with the test script merged in, where there is one that parses to something.
  function MergedManifest(t: Toolchain, manifest: Option<string>, codec: Codec): seq<FileEdit> {
    if !t.TypescriptJavascript? || manifest.None? then []
    else
      match codec.parse(manifest.value)
      case None => []
      case Some(Null) => []
      case Some(pkg) => [FileEdit("package.json", codec.render(WithTestScript(pkg)) + "\n")]
  }

  // The runner's configuration, and the merged manifest.
  method ConfigFiles(t: Toolchain, manifest: Option<string>, codec: Codec, texts: Path -> string)
    returns (files: seq<FileEdit>)
    ensures files == FixedFiles(ConfigPaths(t), texts) + MergedManifest(t, manifest, codec)
    ensures |files| > |ConfigPaths(t)| <==>
      t.TypescriptJavascript? && manifest.Some? && codec.parse(manifest.value).Some? && !codec.parse(manifest.value).value.Null?
  {
    files := FixedFiles(ConfigPaths(t), texts);
    if t.TypescriptJavascript? && manifest.Some? {
      var pkg := codec.parse(manifest.value);
      if pkg.Some? && !pkg.value.Null? {
        files := files + [FileEdit("package.json", codec.render(WithTestScript(pkg.value)) + "\n")];
      }
    }
  }

  // ---- What fits together ----

  // The merged manifest reads back as the old one but for its test script: whatever the old one parsed to,
  // what a spread copies of it is kept.
  lemma MergeKeepsManifest(pkg: Json, codec: Codec)
    requires RoundTrips(codec)
    ensures var merged := codec.parse(codec.render(WithTestScript(pkg)) + "\n");
      var kept := Spread(Some(pkg));
      && merged.Some? && merged.value.Obj?
      && merged.value.members.Keys == kept.Keys + {"scripts"}
      && (forall k | k in kept && k != "scripts" :: merged.value.members[k] == kept[k])
      && merged.value.members["scripts"].Obj?
      && var before, after := Spread(Member(pkg, "scripts")), merged.value.members["scripts"].members;
         after.Keys == before.Keys + {"test"} && after["test"] == Str("vitest run")
         && (forall k | k in before && k != "test" :: after[k] == before[k])
  {
  }

  // And it names a runner, so a second look finds one.
  lemma MergedManifestHasRunner(pkg: Json)
    ensures ManifestHasRunner(WithTestScript(pkg))
  {
    var script := "vitest run";
    assert !IsSpace(script[0]);
    forall i: nat | i <= |script| ensures !OccursAtIgnoringCase(script, "no test specified", i) {
      if i + |"no test specified"| <= |script| { assert false; }
    }
  }

  lemma HasFileIff(files: seq<Path>, name: string)
    ensures HasFile(files, name) <==> exists i | 0 <= i < |files| :: IsNamed(files[i], name)
  {
    FindFileIsFirst(files, name);
  }

  lemma ExampleIsTest(t: Toolchain)
    ensures t.IsTestFile(ExamplePath(t))
  {
    var path := ExamplePath(t);
    if t.TypescriptJavascript? {
      assert JS_EXTENSIONS[2] == ".ts";
      assert EndsWith(path, ".test" + JS_EXTENSIONS[2]);
    } else {
      assert OccursAt(path, ["test", "tests"][1] + "/", 0);
      assert EndsWith(path, ".py");
    }
  }

  // Where a set-up is called for, no file of the recipe but the manifest stands in the listing yet.
  lemma RecipeIsAdditive(t: Toolchain, files: seq<Path>, read: Reader, codec: Codec)
    ensures var action := DetectTestSetup(t, files, read, codec);
      && (!action.NoAction? ==> forall i | 0 <= i < |ConfigPaths(t)| :: ConfigPaths(t)[i] !in files)
      && (action.FullSetup? ==> ExamplePath(t) !in files)
  {
    hide AnyMatches, ParsedManifest, ManifestHasRunner, InDirectory, FindFile;
    ExampleIsTest(t);
    forall name { HasFileIff(files, name); }
    assert DEDICATED_CONFIGS[0] == "vitest.config.ts";
    if ExamplePath(t) in files {
      var i :| 0 <= i < |files| && files[i] == ExamplePath(t);
    }
    forall i | 0 <= i < |ConfigPaths(t)| && ConfigPaths(t)[i] in files
      ensures HasTestRunner(t, files, read, codec)
    {
      var name := ConfigPaths(t)[i];
      var k :| 0 <= k < |files| && files[k] == name;
      assert IsNamed(files[k], name);
      assert HasFile(files, name);
    }
  }

  // Once the recipe's files are listed, no reader can make a set-up look missing again.
  lemma RecipeIsIdempotent(t: Toolchain, files: seq<Path>, read: Reader, codec: Codec)
    requires forall i | 0 <= i < |ConfigPaths(t)| :: ConfigPaths(t)[i] in files
    ensures DetectTestSetup(t, files, read, codec).NoAction?
  {
    hide AnyMatches, ParsedManifest, ManifestHasRunner, InDirectory, FindFile;
    var name := ConfigPaths(t)[0];
    HasFileIff(files, name);
    assert name in files;
    var i :| 0 <= i < |files| && files[i] == name;
    assert IsNamed(files[i], name);
    assert DEDICATED_CONFIGS[0] == "vitest.config.ts";
  }

  // The manifest looked into is the root one exactly if no file of that name is listed before it.
  lemma ManifestIsRootIff(files: seq<Path>, name: string)
    requires name in files
    ensures FindFile(files, name) == Some(name) <==>
      exists i | 0 <= i < |files| :: files[i] == name && forall k | 0 <= k < i :: !IsNamed(files[k], name)
  {
    FindFileIsFirst(files, name);
    var i :| 0 <= i < |files| && files[i] == name;
    assert IsNamed(files[i], name);
  }

  // In a monorepo the manifest inspected need not be the one the recipe merges into.
  lemma NestedManifestWins()
    ensures FindFile(["app/package.json", "package.json"], "package.json") == Some("app/package.json")
  {
    assert EndsWith("app/package.json", "/" + "package.json");
  }

  // ---- The bootstrap ----

  datatype BootstrapResult = VerifiedGreen(changedPaths: seq<Path>) | NotVerified | NoRecipe | BootstrapThrew

  // What the install command leaves in the checkout, and how it ends.
  datatype Install = Install(after: Tree, ok: bool)

  // Every path once, in order of first appearance.
  function Distinct(paths: seq<Path>): seq<Path> {
    if paths == [] then []
    else
      var before := Distinct(paths[..|paths| - 1]);
      var last := paths[|paths| - 1];
      if last in before then before else before + [last]
  }

  // The same paths, each once.
  ghost predicate ListsOnce(distinct: seq<Path>, paths: seq<Path>) {
    && (forall p :: p in distinct <==> p in paths)
    && (forall i, j | 0 <= i < j < |distinct| :: distinct[i] != distinct[j])
  }

  function PathList(files: seq<FileEdit>): seq<Path> {
    seq(|files|, i requires 0 <= i < |files| => files[i].path)
  }

  // The files of the recipe: a repository that has tests is given none.
  function RecipeFiles(t: Toolchain, action: Action, manifest: Option<string>, codec: Codec, texts: Path -> string)
    : seq<FileEdit>
  {
    FixedFiles(ConfigPaths(t), texts) + MergedManifest(t, manifest, codec)
    + if action.FullSetup? then [FileEdit(ExamplePath(t), texts(ExamplePath(t)))] else []
  }

  function ContentAt(tree: Tree, path: Path): Option<string> {
    if path in tree then Some(tree[path]) else None
  }

  // One of the calls breaks: reading the manifest, writing the recipe, installing, and, after a good install,
  // running the suite.
  predicate BootstrapBreaks(health: nat -> CallOutcome, first: nat, installs: bool) {
    || health(first).Breaks? || health(first + 1).Breaks? || health(first + 2).Breaks?
    || (installs && health(first + 3).Breaks?)
  }

  // Writes the recipe, if the language pack has one, installs the runner and requires a green suite before
  // anything is offered for commit. How it ends is read off its four sandbox calls, the install and the suite.
  method RunBootstrap(t: Toolchain, hasRecipe: bool, action: Action, sandbox: CodeSandbox, codec: Codec, texts: Path -> string,
                      install: Install)
    returns (r: BootstrapResult, ghost written: seq<FileEdit>)
    requires !action.NoAction?
    modifies sandbox
    ensures old(sandbox.runs) <= sandbox.runs && |sandbox.runs| <= |old(sandbox.runs)| + 1
    ensures r.NoRecipe? <==> !hasRecipe
    ensures r.NoRecipe? ==> sandbox.tree == old(sandbox.tree) && sandbox.runs == old(sandbox.runs) && written == []
    ensures hasRecipe ==> (r.BootstrapThrew? <==> BootstrapBreaks(sandbox.health, old(sandbox.calls), install.ok))
    ensures hasRecipe && !r.BootstrapThrew? ==>
      (r.VerifiedGreen? <==> install.ok && sandbox.verdicts(old(sandbox.calls) + 4).Passed?)
    ensures hasRecipe && sandbox.health(old(sandbox.calls)).Breaks? ==> written == [] && sandbox.tree == old(sandbox.tree)
    ensures hasRecipe && sandbox.health(old(sandbox.calls)).Works? ==>
      && written == RecipeFiles(t, action, ContentAt(old(sandbox.tree), t.Manifest()), codec, texts)
      && sandbox.tree == (if sandbox.health(old(sandbox.calls) + 1).Works? then install.after
                          else Overlay(old(sandbox.tree), WrittenBy(written, sandbox.health(old(sandbox.calls) + 1))))
    ensures r.VerifiedGreen? ==>
      && sandbox.calls == old(sandbox.calls) + 4
      && sandbox.runs == old(sandbox.runs) + [TestRun(sandbox.tree, Passed)]
      && ListsOnce(r.changedPaths, PathList(written) + InstallArtifacts(t))
    ensures r.NotVerified? && install.ok ==>
      sandbox.runs == old(sandbox.runs) + [TestRun(sandbox.tree, sandbox.verdicts(old(sandbox.calls) + 4))]
  {
    hide Overlay, FixedFiles, Distinct, PathList, ConfigPaths, ExamplePath, InstallArtifacts, MergedManifest, WrittenBy;
    hide Snapshot, ContentAt, PartlyWritten, RecipeFiles, ListsOnce, Toolchain.Manifest;
    written := [];
    if !hasRecipe { return NoRecipe, written; }
    ghost var tree := sandbox.tree;
    var ok, found := sandbox.ReadFiles([t.Manifest()]);
    if !ok { return BootstrapThrew, written; }
    var manifest := if found == [] then None else Some(found[0].content);
    var files := ConfigFiles(t, manifest, codec, texts);
    if action.FullSetup? { files := files + [FileEdit(ExamplePath(t), texts(ExamplePath(t)))]; }
    assert files == RecipeFiles(t, action, ContentAt(tree, t.Manifest()), codec, texts) by {
      SnapshotOne(tree, t.Manifest());
      RecipeIs(t, action, manifest, codec, texts);
    }
    ok := sandbox.WriteFiles(files);
    written := files;
    if !ok { return BootstrapThrew, written; }
    var exit := sandbox.RunSetup(install.after, install.ok);
    if exit.None? { return BootstrapThrew, written; }
    if !exit.value { return NotVerified, written; }
    var status := sandbox.RunTests();
    if status.None? { return BootstrapThrew, written; }
    if status != Some(Passed) { return NotVerified, written; }
    DistinctPaths(PathList(files) + InstallArtifacts(t));
    return VerifiedGreen(Distinct(PathList(files) + InstallArtifacts(t))), written;
  }

  lemma SnapshotOne(tree: Tree, path: Path)
    ensures var found := Snapshot(tree, [path]);
      (if found == [] then None else Some(found[0].content)) == ContentAt(tree, path)
  {
    assert [path][..0] == [];
  }

  lemma RecipeIs(t: Toolchain, action: Action, manifest: Option<string>, codec: Codec, texts: Path -> string)
    ensures var config := FixedFiles(ConfigPaths(t), texts) + MergedManifest(t, manifest, codec);
      RecipeFiles(t, action, manifest, codec, texts)
      == if action.FullSetup? then config + [FileEdit(ExamplePath(t), texts(ExamplePath(t)))] else config
  {
    hide FixedFiles, MergedManifest, ExamplePath;
  }

  // The recipe writes its own files, the manifest, and an example test exactly where there are no tests yet.
  lemma RecipeWrites(t: Toolchain, action: Action, manifest: Option<string>, codec: Codec, texts: Path -> string)
    ensures var files := RecipeFiles(t, action, manifest, codec, texts);
      && FixedFiles(ConfigPaths(t), texts) <= files
      && (forall e | e in files ::
            e.path in ConfigPaths(t) || e.path == t.Manifest() || (action.FullSetup? && e.path == ExamplePath(t)))
      && (action.FullSetup? <==> ExamplePath(t) in PathList(files))
  {
    var config, merged := FixedFiles(ConfigPaths(t), texts), MergedManifest(t, manifest, codec);
    var files := RecipeFiles(t, action, manifest, codec, texts);
    forall e | e in config ensures e.path in ConfigPaths(t) {
      var i :| 0 <= i < |config| && config[i] == e;
    }
    if action.FullSetup? { assert PathList(files)[|files| - 1] == ExamplePath(t); }
    if ExamplePath(t) in PathList(files) {
      var i :| 0 <= i < |files| && files[i].path == ExamplePath(t);
      assert files[i] in files && (files[i] in config || files[i] in merged || action.FullSetup?);
    }
  }

  lemma {:induction false} DistinctPaths(paths: seq<Path>)
    ensures ListsOnce(Distinct(paths), paths)
  {
    if paths != [] {
      DistinctPaths(paths[..|paths| - 1]);
      assert paths == paths[..|paths| - 1] + [paths[|paths| - 1]];
    }
  }
}
