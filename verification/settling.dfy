/**
 * Stage by stage: the paths whose existence makes a stage skip all its
 * one-time work (its markers), the fact that a stage's plan creates every
 * marker it lacks, and what the stage still issues once they all exist
 * (its steady plan).
 */
module Settling {
  import opened Wrappers
  import opened Paths
  import opened Commands
  import opened Cache
  import opened Provision
  import opened RepoList
  import opened Stages

  /**
   * The shell steps build.py issues only behind an existence check: cmake's
   * unpack, bootstrap, build and install (187-190), the first `em++` runs
   * (227, 231), node's unpack, link and browserify install (275-277), and
   * the monaco-editor and golden-layout unpacks (286, 298).
   */
  predicate GuardedShellLine(line: nat) {
    || 187 <= line <= 190
    || line == 227 || line == 231
    || 275 <= line <= 277
    || line == 286 || line == 298
  }

  /** Work done once per tree: configuring, installing, cloning, fetching, and the guarded shell steps. */
  predicate OneTime(c: Command) {
    || c.Configure? || c.Install? || c.GitClone? || c.AddUpstream? || c.Checkout? || c.Fetch?
    || (c.Shell? && GuardedShellLine(c.line))
  }

  /** A list of commands with no one-time work in it. */
  predicate Repeatable(cs: seq<Command>) {
    forall c :: c in cs ==> !OneTime(c)
  }

  /** Every shell step of `cs` counts as one-time work. */
  predicate ShellsOneTime(cs: seq<Command>) {
    forall c :: (c in cs && c.Shell?) ==> OneTime(c)
  }

  /** cmake's unpack, bootstrap, make and make install are one-time work. */
  lemma CmakeUnpackOneTime()
    ensures ShellsOneTime(CmakeUnpack())
  {
  }

  /** emscripten's two `em++` runs that write its configuration are one-time work. */
  lemma EmscriptenConfigOneTime()
    ensures ShellsOneTime(EmscriptenConfig())
  {
  }

  /** node's unpack, link and browserify install are one-time work. */
  lemma NodeUnpackOneTime()
    ensures ShellsOneTime(NodeUnpack())
  {
  }

  /** monaco-editor's unpack is one-time work. */
  lemma MonacoUnpackOneTime()
    ensures ShellsOneTime(MonacoUnpack())
  {
  }

  /** golden-layout's unpack is one-time work. */
  lemma GoldenLayoutUnpackOneTime()
    ensures ShellsOneTime(GoldenLayoutUnpack())
  {
  }

  /** Every shell step of the blocks build.py guards by an existence check counts as one-time work. */
  lemma GuardedBlocksOneTime()
    ensures ShellsOneTime(CmakeUnpack() + EmscriptenConfig() + NodeUnpack() + MonacoUnpack() + GoldenLayoutUnpack())
  {
    CmakeUnpackOneTime();
    EmscriptenConfigOneTime();
    NodeUnpackOneTime();
    MonacoUnpackOneTime();
    GoldenLayoutUnpackOneTime();
  }

  /** One-time work in a concatenation comes from one of its halves. */
  lemma RepeatableAppend(a: seq<Command>, b: seq<Command>)
    requires Repeatable(a) && Repeatable(b)
    ensures Repeatable(a + b)
  {
  }

  // ---- clone ----

  lemma CloneProvides(fs: set<Path>)
    ensures RepoPaths(Repos()) <= fs + CreatedBy(ClonePlan(fs, Repos(), UseTag()))
  {
    ReposRelative();
    ClonePlanProvides(fs, Repos(), UseTag());
    RepoPathsIndexed(fs + CreatedBy(ClonePlan(fs, Repos(), UseTag())), Repos());
  }

  lemma CloneSettled(fs: set<Path>)
    requires RepoPaths(Repos()) <= fs
    ensures ClonePlan(fs, Repos(), UseTag()) == []
  {
    RepoPathsIndexed(fs, Repos());
    ClonePlanAllPresent(fs, Repos(), UseTag());
  }

  // ---- cmake ----

  function CmakeMarkers(): set<Path> { {CachePath(CmakeArchive()), CmakeSource()} }

  lemma CmakeProvides(fs: set<Path>)
    ensures CmakeMarkers() <= fs + CreatedBy(CmakePlan(fs))
  {
    var fetch := DownloadPlan(fs, CmakeUrl(), None);
    var build := Unless(fs, CmakeSource(), CmakeUnpack());
    CmakeArchiveName();
    DownloadProvides(fs, CmakeUrl(), None);
    UnlessProvides(fs, CmakeSource(), CmakeUnpack());
    CreatedByAppend(fetch, build);
  }

  lemma CmakeSettled(fs: set<Path>)
    requires CmakeMarkers() <= fs
    ensures CmakePlan(fs) == []
  {
    CmakeArchiveName();
  }

  // ---- llvm, binaryen, emscripten ----

  function LlvmMarkers(): set<Path> { {LlvmBuild(), LlvmInstall()} }

  lemma LlvmProvides(fs: set<Path>)
    ensures LlvmMarkers() <= fs + CreatedBy(LlvmPlan(fs))
  {
    var configure := Gated(fs, LlvmBuild(), [LlvmConfigure()]);
    var install := Gated(fs, LlvmInstall(), [LlvmInstallAll()]);
    GatedProvides(fs, LlvmBuild(), [LlvmConfigure()]);
    GatedProvides(fs, LlvmInstall(), [LlvmInstallAll()]);
    CreatedByAppend(configure, [LlvmCompile()]);
    CreatedByAppend(configure + [LlvmCompile()], install);
  }

  lemma LlvmSettled(fs: set<Path>)
    requires LlvmMarkers() <= fs
    ensures LlvmPlan(fs) == [LlvmCompile()]
  {
  }

  function BinaryenMarkers(): set<Path> { {BinaryenBuild(), BinaryenInstall()} }

  lemma BinaryenProvides(fs: set<Path>)
    ensures BinaryenMarkers() <= fs + CreatedBy(BinaryenPlan(fs))
  {
    var configure := Gated(fs, BinaryenBuild(), [Configure(BinaryenBuild(), "repos/binaryen")]);
    var install := Gated(fs, BinaryenInstall(), [Install(BinaryenBuild(), ["install"])]);
    GatedProvides(fs, BinaryenBuild(), [Configure(BinaryenBuild(), "repos/binaryen")]);
    GatedProvides(fs, BinaryenInstall(), [Install(BinaryenBuild(), ["install"])]);
    CreatedByAppend(configure, [BinaryenCompile()]);
    CreatedByAppend(configure + [BinaryenCompile()], install);
  }

  lemma BinaryenSettled(fs: set<Path>)
    requires BinaryenMarkers() <= fs
    ensures BinaryenPlan(fs) == [BinaryenCompile()]
  {
  }

  function EmscriptenMarkers(): set<Path> { {OptimizerBuild(), ConfigFile()} }

  lemma EmscriptenProvides(fs: set<Path>)
    ensures EmscriptenMarkers() <= fs + CreatedBy(EmscriptenPlan(fs))
  {
    var configure := Gated(fs, OptimizerBuild(), [Configure(OptimizerBuild(), "repos/emscripten/tools/optimizer")]);
    var config := Unless(fs, ConfigFile(), EmscriptenConfig());
    GatedProvides(fs, OptimizerBuild(), [Configure(OptimizerBuild(), "repos/emscripten/tools/optimizer")]);
    UnlessProvides(fs, ConfigFile(), EmscriptenConfig());
    CreatedByAppend(configure, [OptimizerCompile()]);
    CreatedByAppend(configure + [OptimizerCompile()], config);
  }

  lemma EmscriptenSettled(fs: set<Path>)
    requires EmscriptenMarkers() <= fs
    ensures EmscriptenPlan(fs) == [OptimizerCompile()]
  {
  }

  // ---- tools, llvm-browser, rtl: a gated configure, then a compile ----

  lemma OneMarkerProvides(fs: set<Path>, marker: Path, body: seq<Command>, always: Command)
    ensures marker in fs + CreatedBy(Gated(fs, marker, body) + [always])
  {
    GatedProvides(fs, marker, body);
    CreatedByAppend(Gated(fs, marker, body), [always]);
  }

  lemma ToolsProvides(fs: set<Path>)
    ensures ToolsBuild() in fs + CreatedBy(ToolsPlan(fs))
  {
    OneMarkerProvides(fs, ToolsBuild(), [Configure(ToolsBuild(), "src")], ToolsCompile());
  }

  lemma LlvmBrowserProvides(fs: set<Path>)
    ensures LlvmBrowserBuild() in fs + CreatedBy(LlvmBrowserPlan(fs))
  {
    OneMarkerProvides(fs, LlvmBrowserBuild(), [Configure(LlvmBrowserBuild(), "repos/llvm")], LlvmBrowserCompile());
  }

  lemma RtlProvides(fs: set<Path>)
    ensures RtlBuild() in fs + CreatedBy(RtlPlan(fs))
  {
    OneMarkerProvides(fs, RtlBuild(), [Configure(RtlBuild(), "src/rtl")], RtlCompile());
  }

  // ---- dist ----

  function NodeMarkers(): set<Path> { {CachePath(NodeArchive()), NodeDir()} }

  lemma NodeProvides(fs: set<Path>)
    ensures NodeMarkers() <= fs + CreatedBy(NodePlan(fs))
  {
    NodeArchiveName();
    DownloadProvides(fs, NodeUrl(), None);
    UnlessProvides(fs, NodeDir(), NodeUnpack());
    CreatedByAppend(DownloadPlan(fs, NodeUrl(), None), Unless(fs, NodeDir(), NodeUnpack()));
  }

  lemma NodeSettled(fs: set<Path>)
    requires NodeMarkers() <= fs
    ensures NodePlan(fs) == []
  {
    NodeArchiveName();
  }

  function MonacoMarkers(): set<Path> { {CachePath(MonacoArchive()), MonacoDir()} }

  lemma MonacoProvides(fs: set<Path>)
    ensures MonacoMarkers() <= fs + CreatedBy(MonacoPlan(fs))
  {
    var fetch := DownloadPlan(fs, MonacoUrl(), None);
    var unpack := Gated(fs, MonacoDir(), MonacoUnpack());
    MonacoArchiveName();
    DownloadProvides(fs, MonacoUrl(), None);
    GatedProvides(fs, MonacoDir(), MonacoUnpack());
    CreatedByAppend(fetch, unpack);
    CreatedByAppend(fetch + unpack, MonacoCopies());
  }

  lemma MonacoSettled(fs: set<Path>)
    requires MonacoMarkers() <= fs
    ensures MonacoPlan(fs) == MonacoCopies()
  {
    MonacoArchiveName();
  }

  function JqueryMarkers(): set<Path> { {CachePath(JqueryFile())} }

  lemma JqueryProvides(fs: set<Path>)
    ensures JqueryMarkers() <= fs + CreatedBy(JqueryPlan(fs))
  {
    JqueryFileName();
    DownloadProvides(fs, JqueryUrl(), None);
    CreatedByAppend(DownloadPlan(fs, JqueryUrl(), None), [JqueryCopy()]);
  }

  lemma JquerySettled(fs: set<Path>)
    requires JqueryMarkers() <= fs
    ensures JqueryPlan(fs) == [JqueryCopy()]
  {
    JqueryFileName();
  }

  function GoldenLayoutMarkers(): set<Path> { {CachePath(GoldenLayoutArchive()), GoldenLayoutDir()} }

  lemma GoldenLayoutProvides(fs: set<Path>)
    ensures GoldenLayoutMarkers() <= fs + CreatedBy(GoldenLayoutPlan(fs))
  {
    var fetch := DownloadPlan(fs, GoldenLayoutUrl(), Some(GoldenLayoutArchive()));
    var unpack := Unless(fs, GoldenLayoutDir(), GoldenLayoutUnpack());
    GoldenLayoutArchiveName();
    DownloadProvides(fs, GoldenLayoutUrl(), Some(GoldenLayoutArchive()));
    UnlessProvides(fs, GoldenLayoutDir(), GoldenLayoutUnpack());
    CreatedByAppend(fetch, unpack);
    CreatedByAppend(fetch + unpack, GoldenLayoutCopies());
  }

  lemma GoldenLayoutSettled(fs: set<Path>)
    requires GoldenLayoutMarkers() <= fs
    ensures GoldenLayoutPlan(fs) == GoldenLayoutCopies()
  {
    GoldenLayoutArchiveName();
  }

  function DistMarkers(): set<Path> {
    NodeMarkers() + MonacoMarkers() + JqueryMarkers() + GoldenLayoutMarkers()
  }

  /** The markers that four parts of a six-part concatenation each provide, the whole provides. */
  lemma PartsProvide(fs: set<Path>, a: seq<Command>, b: seq<Command>, c: seq<Command>, d: seq<Command>, e: seq<Command>,
                     f: seq<Command>, mb: set<Path>, mc: set<Path>, md: set<Path>, me: set<Path>)
    requires mb <= fs + CreatedBy(b) && mc <= fs + CreatedBy(c)
    requires md <= fs + CreatedBy(d) && me <= fs + CreatedBy(e)
    ensures mb + mc + md + me <= fs + CreatedBy(a + b + c + d + e + f)
  {
    CreatedByAppend(a, b);
    CreatedByAppend(a + b, c);
    CreatedByAppend(a + b + c, d);
    CreatedByAppend(a + b + c + d, e);
    CreatedByAppend(a + b + c + d + e, f);
  }

  lemma DistProvides(fs: set<Path>)
    ensures DistMarkers() <= fs + CreatedBy(DistPlan(fs))
  {
    NodeProvides(fs);
    MonacoProvides(fs);
    JqueryProvides(fs);
    GoldenLayoutProvides(fs);
    PartsProvide(fs, [MakeDir(DistDir())], NodePlan(fs), MonacoPlan(fs), JqueryPlan(fs), GoldenLayoutPlan(fs), LocalCopies(),
                 NodeMarkers(), MonacoMarkers(), JqueryMarkers(), GoldenLayoutMarkers());
  }

  /** Each of four sets is contained in whatever contains their union. */
  lemma UnionParts(a: set<Path>, b: set<Path>, c: set<Path>, d: set<Path>, fs: set<Path>)
    requires a + b + c + d <= fs
    ensures a <= fs && b <= fs && c <= fs && d <= fs
  {
  }

  /** What `dist` issues on a tree that has all its markers: the copies, every time. */
  function DistSteady(): seq<Command> {
    [MakeDir(DistDir())] + MonacoCopies() + [JqueryCopy()] + GoldenLayoutCopies() + LocalCopies()
  }

  // The copies `dist` repeats on every run are shell steps outside any existence check.
  lemma MonacoCopiesRepeatable() ensures Repeatable(MonacoCopies()) { }
  lemma GoldenLayoutCopiesRepeatable() ensures Repeatable(GoldenLayoutCopies()) { }
  lemma LocalCopiesRepeatable() ensures Repeatable(LocalCopies()) { }

  lemma DistRepeatable()
    ensures Repeatable(DistSteady())
  {
    MonacoCopiesRepeatable();
    GoldenLayoutCopiesRepeatable();
    LocalCopiesRepeatable();
    var d := [MakeDir(DistDir())];
    RepeatableAppend(d, MonacoCopies());
    RepeatableAppend(d + MonacoCopies(), [JqueryCopy()]);
    RepeatableAppend(d + MonacoCopies() + [JqueryCopy()], GoldenLayoutCopies());
    RepeatableAppend(d + MonacoCopies() + [JqueryCopy()] + GoldenLayoutCopies(), LocalCopies());
  }

  lemma DistSettled(fs: set<Path>)
    requires DistMarkers() <= fs
    ensures DistPlan(fs) == DistSteady()
  {
    UnionParts(NodeMarkers(), MonacoMarkers(), JqueryMarkers(), GoldenLayoutMarkers(), fs);
    NodeSettled(fs);
    MonacoSettled(fs);
    JquerySettled(fs);
    GoldenLayoutSettled(fs);
    assert [MakeDir(DistDir())] + NodePlan(fs) == [MakeDir(DistDir())];
  }

  // ---- the three app stages ----

  function AppMarkers(buildDir: Path): set<Path> { {buildDir, DistDir()} }

  /** `app` leaves its build directory and `dist` behind. */
  lemma AppProvides(fs: set<Path>, name: string, buildDir: Path, prep: seq<Command>, env: string, copies: seq<Command>)
    ensures AppMarkers(buildDir) <= fs + CreatedBy(AppPlan(fs, name, buildDir, prep, env) + copies)
  {
    var gate := Gated(fs, buildDir, [Configure(buildDir, "src")]);
    var pre := gate + prep + [Compile(buildDir, [name], env)];
    var tail := Unless(fs + CreatedBy(pre), DistDir(), [MakeDir(DistDir())]);
    GatedProvides(fs, buildDir, [Configure(buildDir, "src")]);
    CreatedByAppend(gate, prep);
    CreatedByAppend(gate + prep, [Compile(buildDir, [name], env)]);
    CreatedByAppend(pre, tail);
    CreatedByAppend(pre + tail, copies);
    if DistDir() !in fs + CreatedBy(pre) {
      assert CreatedBy(tail) == {DistDir()};
    }
  }

  /** What an `app` stage issues once its markers exist: the preparation and the compile. */
  function AppSteady(name: string, buildDir: Path, prep: seq<Command>, env: string): seq<Command> {
    prep + [Compile(buildDir, [name], env)]
  }

  lemma AppSettled(fs: set<Path>, name: string, buildDir: Path, prep: seq<Command>, env: string)
    requires AppMarkers(buildDir) <= fs
    ensures AppPlan(fs, name, buildDir, prep, env) == AppSteady(name, buildDir, prep, env)
  {
    var pre := Gated(fs, buildDir, [Configure(buildDir, "src")]) + prep + [Compile(buildDir, [name], env)];
    assert pre == prep + [Compile(buildDir, [name], env)];
  }

  lemma AppRepeatable(prep: seq<Command>, buildDir: Path, name: string, env: string, copies: seq<Command>)
    requires Repeatable(prep) && Repeatable(copies)
    ensures Repeatable(AppSteady(name, buildDir, prep, env) + copies)
  {
    RepeatableAppend(prep, [Compile(buildDir, [name], env)]);
    RepeatableAppend(AppSteady(name, buildDir, prep, env), copies);
  }

  // The preparation and copies of `appClang` are repeated on every run.
  lemma ClangPrepRepeatable() ensures Repeatable(ClangPrep()) { }
  lemma ClangCopiesRepeatable() ensures Repeatable(ClangCopies()) { }
}
