/**
 * The stages of build.py and the orchestrator `main`. Each stage decides
 * what to issue from existence checks on the paths it produces; its plan
 * below is the list of commands it issues when all of them succeed, as a
 * function of the paths that exist when the stage starts.
 */
module Stages {
  import opened Wrappers
  import opened Paths
  import opened Commands
  import opened Executor
  import opened Cache
  import opened Provision
  import opened RepoList
  import opened BrowserTargets

  // Directories of the build tree (root-relative; build types Release,
  // RelWithDebInfo and Debug as configured at the top of build.py).
  function LlvmBuild(): Path { "build/llvm-Release" }
  function LlvmInstall(): Path { "install/llvm-Release" }
  function LlvmBrowserBuild(): Path { "build/llvm-browser-Release" }
  function BinaryenBuild(): Path { "build/binaryen-RelWithDebInfo" }
  function BinaryenInstall(): Path { "install/binaryen-RelWithDebInfo" }
  function OptimizerBuild(): Path { "build/optimizer-RelWithDebInfo" }
  function RtlBuild(): Path { "build/rtl" }
  function ToolsBuild(): Path { "build/tools" }
  function ClangFormatBuild(): Path { "build/clang-format-browser-Release" }
  function ClangBuild(): Path { "build/clang-browser-Release" }
  function RuntimeBuild(): Path { "build/runtime-browser-Debug" }
  function BuildDir(): Path { "build" }
  function DistDir(): Path { "dist" }
  /** Emscripten's per-user configuration file, outside the build tree. */
  function ConfigFile(): Path { "~/.emscripten" }
  const ReoptClang := true

  // Third-party archives and where they unpack.
  function CmakeArchive(): string { "cmake-3.11.0.tar.gz" }
  function CmakeUrl(): Url { Url("https", "cmake.org", "/files/v3.11", CmakeArchive()) }
  function CmakeSource(): Path { "build/cmake-3.11.0" }
  function NodeArchive(): string { "node-v8.11.1-linux-x64.tar.xz" }
  function NodeUrl(): Url { Url("https", "nodejs.org", "/dist/v8.11.1", NodeArchive()) }
  function NodeDir(): Path { "build/node-v8.11.1-linux-x64" }
  function MonacoArchive(): string { "monaco-editor-0.10.1.tgz" }
  function MonacoUrl(): Url {
    Url("https", "registry.npmjs.org", "/monaco-editor/-", MonacoArchive())
  }
  function MonacoDir(): Path { "download/monaco-editor-0.10.1" }
  function JqueryFile(): string { "jquery-1.11.1.min.js" }
  function JqueryUrl(): Url { Url("http", "code.jquery.com", "", JqueryFile()) }
  function GoldenLayoutUrl(): Url {
    Url("https", "github.com", "/WolframHempel/golden-layout/archive", "v1.5.9.tar.gz")
  }
  function GoldenLayoutArchive(): string { "golden-layout-v1.5.9.tar.gz" }
  function GoldenLayoutDir(): Path { "download/golden-layout-1.5.9" }


  /** The archives' local names are what the cache checks for. */
  lemma CmakeArchiveName() ensures DownloadName(CmakeUrl(), None) == CmakeArchive() {
  }

  lemma NodeArchiveName() ensures DownloadName(NodeUrl(), None) == NodeArchive() {
  }

  lemma MonacoArchiveName() ensures DownloadName(MonacoUrl(), None) == MonacoArchive() {
  }

  lemma JqueryFileName() ensures DownloadName(JqueryUrl(), None) == JqueryFile() {
  }

  /** Without its explicit name, the golden-layout archive would be cached as `v1.5.9.tar.gz`. */
  lemma GoldenLayoutArchiveName()
    ensures DownloadName(GoldenLayoutUrl(), Some(GoldenLayoutArchive())) == GoldenLayoutArchive()
    ensures DownloadName(GoldenLayoutUrl(), None) == "v1.5.9.tar.gz"
  {
  }

  /** Issue `body` only when `marker` does not exist. */
  function Unless(fs: set<Path>, marker: Path, body: seq<Command>): seq<Command> {
    if marker in fs then [] else body
  }

  /** The configure idiom: `mkdir -p <marker>` and then `body`, only when `marker` is missing. */
  function Gated(fs: set<Path>, marker: Path, body: seq<Command>): seq<Command> {
    Unless(fs, marker, [MakeDir(marker)] + body)
  }

  /** Once a block guarded by `marker` has run, `marker` exists if the block creates it. */
  lemma UnlessProvides(fs: set<Path>, marker: Path, body: seq<Command>)
    requires marker in CreatedBy(body)
    ensures marker in fs + CreatedBy(Unless(fs, marker, body))
  {
  }

  /** A gated block always provides its marker: its first command creates it. */
  lemma GatedProvides(fs: set<Path>, marker: Path, body: seq<Command>)
    ensures marker in fs + CreatedBy(Gated(fs, marker, body))
  {
    CreatedByAppend([MakeDir(marker)], body);
    assert CreatedBy([MakeDir(marker)]) == {marker};
  }

  /** A guarded block creates at most what its body creates. */
  lemma UnlessCreates(fs: set<Path>, marker: Path, body: seq<Command>)
    ensures CreatedBy(Unless(fs, marker, body)) <= CreatedBy(body)
  {
  }

  /** A gated block creates at most its marker and what its body creates. */
  lemma GatedCreates(fs: set<Path>, marker: Path, body: seq<Command>)
    ensures CreatedBy(Gated(fs, marker, body)) <= {marker} + CreatedBy(body)
  {
    CreatedByAppend([MakeDir(marker)], body);
    assert CreatedBy([MakeDir(marker)]) == {marker};
  }

  /**
   * The existence check of a block evaluated after `done` has run agrees
   * with the one evaluated at the start, when `done` does not create the
   * marker: the block, planned at the start, runs as if planned then.
   */
  lemma UnlessStep(w0: World, done: seq<Command>, marker: Path, body: seq<Command>, status: Oracle)
    requires marker !in CreatedBy(done)
    ensures var s := ExecAll(w0, done, status);
            ExecAll(w0, done + Unless(w0.fs, marker, body), status) == ExecAll(s, Unless(s.fs, marker, body), status)
  {
    GuardUnaffected(w0, done, status, marker);
    ExecAllAppend(w0, done, Unless(w0.fs, marker, body), status);
  }

  /**
   * A block whose existence check comes after `pre`, planned from what
   * exists once `pre` has succeeded, runs as if planned when it is reached.
   */
  lemma UnlessAfter(w0: World, pre: seq<Command>, marker: Path, body: seq<Command>, status: Oracle)
    ensures var s := ExecAll(w0, pre, status);
            ExecAll(w0, pre + Unless(w0.fs + CreatedBy(pre), marker, body), status) == ExecAll(s, Unless(s.fs, marker, body), status)
  {
    var s := ExecAll(w0, pre, status);
    ExecAllAppend(w0, pre, Unless(w0.fs + CreatedBy(pre), marker, body), status);
    if w0.halted {
      ExecAllHalted(w0, pre, status);
    } else {
      ExecAllCreates(w0, pre, status);
    }
    if s.halted {
      ExecAllHalted(s, Unless(w0.fs + CreatedBy(pre), marker, body), status);
      ExecAllHalted(s, Unless(s.fs, marker, body), status);
    }
  }

  /** Unpack, bootstrap, build and install cmake. */
  function CmakeUnpack(): seq<Command> {
    [
      MakeDir(BuildDir()),
      Shell(187, {CmakeSource()}),
      Shell(188, {}),
      Shell(189, {}),
      Shell(190, {})]
  }

  function CmakePlan(fs: set<Path>): seq<Command> {
    DownloadPlan(fs, CmakeUrl(), None) + Unless(fs, CmakeSource(), CmakeUnpack())
  }

  function LlvmConfigure(): Command { Configure(LlvmBuild(), "repos/llvm") }
  function LlvmCompile(): Command { Compile(LlvmBuild(), [], "") }
  function LlvmInstallAll(): Command {
    Install(LlvmBuild(), ["install", "install-cxx", "install-cxxabi", "install-compiler-rt"])
  }

  function LlvmPlan(fs: set<Path>): seq<Command> {
    Gated(fs, LlvmBuild(), [LlvmConfigure()]) + [LlvmCompile()] + Gated(fs, LlvmInstall(), [LlvmInstallAll()])
  }

  function BinaryenCompile(): Command { Compile(BinaryenBuild(), [], "") }

  function BinaryenPlan(fs: set<Path>): seq<Command> {
    Gated(fs, BinaryenBuild(), [Configure(BinaryenBuild(), "repos/binaryen")])
    + [BinaryenCompile()]
    + Gated(fs, BinaryenInstall(), [Install(BinaryenBuild(), ["install"])])
  }

  function OptimizerCompile(): Command { Compile(OptimizerBuild(), [], "") }

  /** The first `em++` writes the configuration file, to which the script then appends. */
  function EmscriptenConfig(): seq<Command> {
    [
      Shell(227, {ConfigFile()}),
      MakeDir("build/dummy"),
      Shell(231, {})]
  }

  function EmscriptenPlan(fs: set<Path>): seq<Command> {
    Gated(fs, OptimizerBuild(), [Configure(OptimizerBuild(), "repos/emscripten/tools/optimizer")])
    + [OptimizerCompile()]
    + Unless(fs, ConfigFile(), EmscriptenConfig())
  }

  function ToolsCompile(): Command { Compile(ToolsBuild(), ["cib-link", "cib-ar", "combine-data"], "") }

  function ToolsPlan(fs: set<Path>): seq<Command> {
    Gated(fs, ToolsBuild(), [Configure(ToolsBuild(), "src")]) + [ToolsCompile()]
  }

  function LlvmBrowserCompile(): Command { Compile(LlvmBrowserBuild(), LlvmBrowserTargets(), "") }

  function LlvmBrowserPlan(fs: set<Path>): seq<Command> {
    Gated(fs, LlvmBrowserBuild(), [Configure(LlvmBrowserBuild(), "repos/llvm")]) + [LlvmBrowserCompile()]
  }

  function NodeUnpack(): seq<Command> {
    [
      MakeDir(BuildDir()),
      Shell(275, {NodeDir()}),
      Shell(276, {"build/node"}),
      Shell(277, {})]
  }

  function NodePlan(fs: set<Path>): seq<Command> {
    DownloadPlan(fs, NodeUrl(), None) + Unless(fs, NodeDir(), NodeUnpack())
  }

  function MonacoUnpack(): seq<Command> {
    [Shell(286, {})]
  }
  function MonacoCopies(): seq<Command> {
    [
      MakeDir("dist/monaco-editor"),
      Shell(288, {}),
      Shell(289, {}),
      Shell(290, {}),
      Shell(291, {})]
  }
  function JqueryCopy(): Command {
    Shell(294, {})
  }
  function GoldenLayoutUnpack(): seq<Command> {
    [Shell(298, {GoldenLayoutDir()})]
  }
  function GoldenLayoutCopies(): seq<Command> {
    [
      MakeDir("dist/golden-layout"),
      Shell(300, {}),
      Shell(301, {}),
      Shell(302, {}),
      Shell(303, {})]
  }
  function LocalCopies(): seq<Command> {
    [
      MakeDir("dist/zip.js"),
      Shell(306, {}),
      Shell(307, {}),
      Shell(308, {}),
      Shell(309, {}),
      Shell(310, {}),
      Shell(312, {}),
      Shell(313, {})]
  }

  function MonacoPlan(fs: set<Path>): seq<Command> {
    DownloadPlan(fs, MonacoUrl(), None) + Gated(fs, MonacoDir(), MonacoUnpack()) + MonacoCopies()
  }

  function JqueryPlan(fs: set<Path>): seq<Command> {
    DownloadPlan(fs, JqueryUrl(), None) + [JqueryCopy()]
  }

  function GoldenLayoutPlan(fs: set<Path>): seq<Command> {
    DownloadPlan(fs, GoldenLayoutUrl(), Some(GoldenLayoutArchive()))
    + Unless(fs, GoldenLayoutDir(), GoldenLayoutUnpack())
    + GoldenLayoutCopies()
  }

  /** `dist`: the node stage, then three third-party packages and the local files, copied into `dist`. */
  function DistPlan(fs: set<Path>): seq<Command> {
    [MakeDir(DistDir())] + NodePlan(fs) + MonacoPlan(fs) + JqueryPlan(fs) + GoldenLayoutPlan(fs) + LocalCopies()
  }

  function RtlCompile(): Command { Compile(RtlBuild(), [], "") }

  function RtlPlan(fs: set<Path>): seq<Command> {
    Gated(fs, RtlBuild(), [Configure(RtlBuild(), "src/rtl")]) + [RtlCompile()]
  }

  /**
   * `app(name, ..., buildDir, prepBuildDir, env)`: configure once, run the
   * preparation, always compile `name`, and create `dist` if it is still
   * missing at that point.
   */
  function AppPlan(fs: set<Path>, name: string, buildDir: Path, prep: seq<Command>, env: string): seq<Command> {
    var pre := Gated(fs, buildDir, [Configure(buildDir, "src")]) + prep + [Compile(buildDir, [name], env)];
    pre + Unless(fs + CreatedBy(pre), DistDir(), [MakeDir(DistDir())])
  }

  function ClangFormatCopies(): seq<Command> {
    [
      Shell(343, {})]
  }

  function AppClangFormatPlan(fs: set<Path>): seq<Command> {
    AppPlan(fs, "clang-format", ClangFormatBuild(), [], "") + ClangFormatCopies()
  }

  /** The `prepBuildDir` callback of `appClang`. */
  function ClangPrep(): seq<Command> {
    [
      Shell(347, {ClangBuild() + "/usr/lib/libcxxabi", ClangBuild() + "/usr/lib/libc/musl/arch/emscripten"}),
      Shell(348, {}),
      Shell(349, {}),
      Shell(350, {})]
  }

  /** The re-optimisation of `clang.wasm`, or a plain copy when it is switched off. */
  function ClangReopt(reopt: bool): Command {
    if reopt then Shell(353, {})
    else Shell(355, {})
  }
  function ClangCopies(): seq<Command> {
    [
      ClangReopt(ReoptClang),
      Shell(356, {}),
      Shell(357, {})]
  }

  function AppClangPlan(fs: set<Path>): seq<Command> {
    AppPlan(fs, "clang", ClangBuild(), ClangPrep(), "") + ClangCopies()
  }

  function RuntimeEnv(): string { "EMCC_FORCE_STDLIBS=1" }
  function RuntimeCopies(): seq<Command> {
    [
      Shell(361, {}),
      Shell(362, {})]
  }

  function AppRuntimePlan(fs: set<Path>): seq<Command> {
    AppPlan(fs, "runtime", RuntimeBuild(), [], RuntimeEnv()) + RuntimeCopies()
  }

  /**
   * Two-level idempotency of `llvm`: the configure is issued exactly when
   * the build directory is missing, the install exactly when the install
   * directory is missing, and the compile every time.
   */
  lemma LlvmTwoLevel(fs: set<Path>)
    ensures LlvmConfigure() in LlvmPlan(fs) <==> LlvmBuild() !in fs
    ensures LlvmInstallAll() in LlvmPlan(fs) <==> LlvmInstall() !in fs
    ensures LlvmCompile() in LlvmPlan(fs)
  {
  }

  /** The same two levels in `binaryen`. */
  lemma BinaryenTwoLevel(fs: set<Path>)
    ensures Configure(BinaryenBuild(), "repos/binaryen") in BinaryenPlan(fs) <==> BinaryenBuild() !in fs
    ensures Install(BinaryenBuild(), ["install"]) in BinaryenPlan(fs) <==> BinaryenInstall() !in fs
    ensures BinaryenCompile() in BinaryenPlan(fs)
  {
  }

  /** `app`'s configure is issued exactly when its build directory is missing; its target is compiled every time. */
  lemma AppConfiguresOnce(fs: set<Path>, name: string, buildDir: Path, prep: seq<Command>, env: string)
    requires forall c :: c in prep ==> !c.Configure?
    ensures Configure(buildDir, "src") in AppPlan(fs, name, buildDir, prep, env) <==> buildDir !in fs
    ensures Compile(buildDir, [name], env) in AppPlan(fs, name, buildDir, prep, env)
  {
    var gate := Gated(fs, buildDir, [Configure(buildDir, "src")]);
    var pre := gate + prep + [Compile(buildDir, [name], env)];
    var tail := Unless(fs + CreatedBy(pre), DistDir(), [MakeDir(DistDir())]);
    assert AppPlan(fs, name, buildDir, prep, env) == gate + (prep + [Compile(buildDir, [name], env)] + tail);
  }

  /** `app` creates `dist` exactly when it is missing, provided nothing before that check creates it. */
  lemma AppDistOnce(fs: set<Path>, name: string, buildDir: Path, prep: seq<Command>, env: string)
    requires buildDir != DistDir()
    requires MakeDir(DistDir()) !in prep && DistDir() !in CreatedBy(prep)
    ensures MakeDir(DistDir()) in AppPlan(fs, name, buildDir, prep, env) <==> DistDir() !in fs
  {
    var gate := Gated(fs, buildDir, [Configure(buildDir, "src")]);
    var compile := Compile(buildDir, [name], env);
    var pre := gate + prep + [compile];
    assert DistDir() !in CreatedBy(pre) by {
      assert CreatedBy([Configure(buildDir, "src")]) == {};
      assert CreatedBy([compile]) == {};
      CreatedByAppend(gate, prep);
      CreatedByAppend(gate + prep, [compile]);
    }
    assert MakeDir(DistDir()) !in pre;
  }

  /**
   * A gated block is never retried once its `mkdir -p` has succeeded, even
   * when the command after it failed: the marker exists, so the next
   * evaluation of the block issues nothing.
   */
  lemma GatedNotRetried(w: World, m: Path, body: seq<Command>, status: Oracle)
    ensures var r := ExecAll(w, Gated(w.fs, m, body), status);
            !r.halted || |r.log| >= |w.log| + 2 ==> Gated(r.fs, m, body) == []
  {
    if m !in w.fs && !w.halted {
      var w1 := Exec(w, MakeDir(m), status);
      ExecAllAppend(w, [MakeDir(m)], body, status);
      assert ExecAll(w, [MakeDir(m)], status) == w1 by {
        assert [MakeDir(m)][1..] == [];
      }
      if w1.halted {
        ExecAllHalted(w1, body, status);
      } else {
        ExecAllFootprint(w1, body, status);
      }
    } else if m !in w.fs {
      ExecAllHalted(w, Gated(w.fs, m, body), status);
    }
  }

  /**
   * A command of a gated block other than its `mkdir -p` is only ever
   * issued after the marker has been created.
   */
  lemma GatedReached(w: World, m: Path, body: seq<Command>, status: Oracle, c: Command)
    requires c != MakeDir(m)
    ensures var g := ExecAll(w, Gated(w.fs, m, body), status);
            && w.log <= g.log
            && (c in g.log[|w.log|..] ==> m in g.fs)
  {
    var g := ExecAll(w, Gated(w.fs, m, body), status);
    ExecAllIssued(w, Gated(w.fs, m, body), status);
    if m !in w.fs && !w.halted {
      ExecAllFailFast(w, [MakeDir(m)] + body, status);
      GatedNotRetried(w, m, body, status);
      if |g.log| < |w.log| + 2 && g.halted {
        assert g.log[|w.log|..] == [MakeDir(m)];
      } else {
        assert m in g.fs;
      }
    } else if w.halted {
      ExecAllHalted(w, Gated(w.fs, m, body), status);
    }
  }

  /**
   * A block `gated + rest` whose gated part is a single command `c` that
   * `rest` does not repeat: once `c` has been issued, the marker exists.
   */
  lemma GatedFirstReached(w: World, m: Path, c: Command, rest: seq<Command>, status: Oracle)
    requires c != MakeDir(m) && c !in rest
    ensures var r := ExecAll(w, Gated(w.fs, m, [c]) + rest, status);
            && w.log <= r.log
            && (c in r.log[|w.log|..] ==> m in r.fs)
  {
    var gate := Gated(w.fs, m, [c]);
    ExecAllAppend(w, gate, rest, status);
    var g := ExecAll(w, gate, status);
    var r := ExecAll(g, rest, status);
    GatedReached(w, m, [c], status, c);
    ExecAllIssued(g, rest, status);
    ExecAllFootprint(g, rest, status);
    var late := r.log[|g.log|..];
    LogSplit(w.log, g.log, r.log);
    assert c !in late by {
      assert late == rest[..|late|];
    }
  }

  /**
   * Hence `llvm` never re-issues a configure it has once reached: if the
   * configure was issued (and failed, or not), the next `llvm` skips it.
   */
  lemma LlvmConfigureNotRetried(w: World, status: Oracle)
    ensures var r := ExecAll(w, LlvmPlan(w.fs), status);
            && w.log <= r.log
            && (LlvmConfigure() in r.log[|w.log|..] ==> LlvmConfigure() !in LlvmPlan(r.fs))
  {
    var rest := [LlvmCompile()] + Gated(w.fs, LlvmInstall(), [LlvmInstallAll()]);
    assert LlvmPlan(w.fs) == Gated(w.fs, LlvmBuild(), [LlvmConfigure()]) + rest;
    GatedFirstReached(w, LlvmBuild(), LlvmConfigure(), rest, status);
    LlvmTwoLevel(ExecAll(w, LlvmPlan(w.fs), status).fs);
  }

  /**
   * An unpack of node that fails after creating its directory is never
   * completed: the existence check of the next `node()` finds the
   * directory, so neither that run nor any later one issues the `ln -sf`
   * and the `npm i -g browserify` that follow the unpack.
   */
  lemma NodeUnpackNotRetried(w: World, status: Oracle)
    requires !w.halted
    requires CachePath(NodeArchive()) in w.fs && NodeDir() !in w.fs
    requires status.exit(|w.log|, MakeDir(BuildDir())) == 0
    requires status.exit(|w.log| + 1, Shell(275, {NodeDir()})) != 0
    requires NodeDir() in status.leftover(|w.log| + 1, Shell(275, {NodeDir()}))
    ensures var r := ExecAll(w, NodePlan(w.fs), status);
            && r.halted
            && r.log == w.log + [MakeDir(BuildDir()), Shell(275, {NodeDir()})]
            && NodePlan(r.fs) == []
  {
    var plan := NodePlan(w.fs);
    assert DownloadPlan(w.fs, NodeUrl(), None) == [] by { NodeArchiveName(); }
    assert plan == NodeUnpack();
    var w1 := Exec(w, MakeDir(BuildDir()), status);
    var r := Exec(w1, Shell(275, {NodeDir()}), status);
    assert plan[1..][1..] == NodeUnpack()[2..];
    ExecAllHalted(r, NodeUnpack()[2..], status);
    assert ExecAll(w, plan, status) == ExecAll(w1, plan[1..], status) == ExecAll(r, plan[1..][1..], status);
    assert DownloadPlan(r.fs, NodeUrl(), None) == [] by { NodeArchiveName(); }
  }
}
