/**
 * build.py itself, as the imperative program it is: a process whose state
 * is the file tree it works in, the commands it has issued, and whether it
 * has exited. Each function of the script is a method that issues commands
 * one `run` at a time and tests paths in between; each is proved to leave
 * exactly the state its plan (module Stages, module Provision, module Cache)
 * describes, so every property proved about the plans holds of the script.
 */
module BuildScript {
  import opened Wrappers
  import opened Paths
  import opened Commands
  import opened Executor
  import opened Cache
  import opened Provision
  import opened RepoList
  import opened Stages
  import opened Pipeline

  /*
   * `dist()` calls `node()` and then runs the paragraphs for the other
   * packages, each testing the cache when it is reached. None of the
   * earlier commands creates a path a later paragraph tests, so each runs
   * as planned when `dist` starts.
   */

  /** What the node stage can create: the cache entries and the unpacked tree. */
  lemma NodeCreates(fs: set<Path>)
    ensures CreatedBy(NodePlan(fs)) <= {DownloadDir(), CachePath(NodeArchive()), BuildDir(), NodeDir(), "build/node"}
  {
    NodeArchiveName();
    DownloadCreates(fs, NodeUrl(), None);
    UnlessCreates(fs, NodeDir(), NodeUnpack());
    CreatedByAppend(DownloadPlan(fs, NodeUrl(), None), Unless(fs, NodeDir(), NodeUnpack()));
    CreatedByAppend([MakeDir(BuildDir()), Shell(275, {NodeDir()})], [Shell(276, {"build/node"}), Shell(277, {})]);
    assert NodeUnpack() == [MakeDir(BuildDir()), Shell(275, {NodeDir()})] + [Shell(276, {"build/node"}), Shell(277, {})];
  }

  /** What the monaco paragraph of `dist()` can create. */
  lemma MonacoCreates(fs: set<Path>)
    ensures CreatedBy(MonacoPlan(fs)) <= {DownloadDir(), CachePath(MonacoArchive()), MonacoDir(), "dist/monaco-editor"}
  {
    MonacoArchiveName();
    var a := DownloadPlan(fs, MonacoUrl(), None);
    var b := Gated(fs, MonacoDir(), MonacoUnpack());
    DownloadCreates(fs, MonacoUrl(), None);
    GatedCreates(fs, MonacoDir(), MonacoUnpack());
    CreatedByAppend(a, b);
    CreatedByAppend(a + b, MonacoCopies());
    assert MonacoCopies() == [MakeDir("dist/monaco-editor")] + MonacoCopies()[1..];
    CreatedByAppend([MakeDir("dist/monaco-editor")], MonacoCopies()[1..]);
  }

  /** What the jquery paragraph of `dist()` can create. */
  lemma JqueryCreates(fs: set<Path>)
    ensures CreatedBy(JqueryPlan(fs)) <= {DownloadDir(), CachePath(JqueryFile())}
  {
    JqueryFileName();
    DownloadCreates(fs, JqueryUrl(), None);
    CreatedByAppend(DownloadPlan(fs, JqueryUrl(), None), [JqueryCopy()]);
  }

  /** The node stage, planned at the start of `dist()`, runs as planned when reached, after anything that leaves its markers alone. */
  lemma NodeResumes(w0: World, done: seq<Command>, status: Oracle)
    requires CachePath(NodeArchive()) !in CreatedBy(done) && NodeDir() !in CreatedBy(done)
    ensures var s := ExecAll(w0, done, status);
            ExecAll(w0, done + NodePlan(w0.fs), status) == ExecAll(s, NodePlan(s.fs), status)
  {
    var s := ExecAll(w0, done, status);
    NodeArchiveName();
    GuardUnaffected(w0, done, status, CachePath(NodeArchive()));
    GuardUnaffected(w0, done, status, NodeDir());
    assert NodePlan(s.fs) == NodePlan(w0.fs);
    ExecAllAppend(w0, done, NodePlan(w0.fs), status);
  }

  /** The same for the monaco paragraph. */
  lemma MonacoResumes(w0: World, done: seq<Command>, status: Oracle)
    requires CachePath(MonacoArchive()) !in CreatedBy(done) && MonacoDir() !in CreatedBy(done)
    ensures var s := ExecAll(w0, done, status);
            ExecAll(w0, done + MonacoPlan(w0.fs), status) == ExecAll(s, MonacoPlan(s.fs), status)
  {
    var s := ExecAll(w0, done, status);
    MonacoArchiveName();
    GuardUnaffected(w0, done, status, CachePath(MonacoArchive()));
    GuardUnaffected(w0, done, status, MonacoDir());
    assert MonacoPlan(s.fs) == MonacoPlan(w0.fs);
    ExecAllAppend(w0, done, MonacoPlan(w0.fs), status);
  }

  /** The same for the jquery paragraph. */
  lemma JqueryResumes(w0: World, done: seq<Command>, status: Oracle)
    requires CachePath(JqueryFile()) !in CreatedBy(done)
    ensures var s := ExecAll(w0, done, status);
            ExecAll(w0, done + JqueryPlan(w0.fs), status) == ExecAll(s, JqueryPlan(s.fs), status)
  {
    var s := ExecAll(w0, done, status);
    JqueryFileName();
    GuardUnaffected(w0, done, status, CachePath(JqueryFile()));
    assert JqueryPlan(s.fs) == JqueryPlan(w0.fs);
    ExecAllAppend(w0, done, JqueryPlan(w0.fs), status);
  }

  /** The same for the golden-layout paragraph. */
  lemma GoldenLayoutResumes(w0: World, done: seq<Command>, status: Oracle)
    requires CachePath(GoldenLayoutArchive()) !in CreatedBy(done) && GoldenLayoutDir() !in CreatedBy(done)
    ensures var s := ExecAll(w0, done, status);
            ExecAll(w0, done + GoldenLayoutPlan(w0.fs), status) == ExecAll(s, GoldenLayoutPlan(s.fs), status)
  {
    var s := ExecAll(w0, done, status);
    GoldenLayoutArchiveName();
    GuardUnaffected(w0, done, status, CachePath(GoldenLayoutArchive()));
    GuardUnaffected(w0, done, status, GoldenLayoutDir());
    assert GoldenLayoutPlan(s.fs) == GoldenLayoutPlan(w0.fs);
    ExecAllAppend(w0, done, GoldenLayoutPlan(w0.fs), status);
  }

  /** The `mkdir dist` that opens `dist()` leaves the node stage's markers alone. */
  lemma DistHeadLeavesNode()
    ensures var p1 := [MakeDir(DistDir())];
            CachePath(NodeArchive()) !in CreatedBy(p1) && NodeDir() !in CreatedBy(p1)
  {
    assert CreatedBy([MakeDir(DistDir())]) == {DistDir()};
  }

  /** A path outside what the node stage can create is not created by it. */
  lemma NodeAvoids(fs: set<Path>, p: Path)
    requires p !in {DownloadDir(), CachePath(NodeArchive()), BuildDir(), NodeDir(), "build/node"}
    ensures p !in CreatedBy(NodePlan(fs))
  {
    NodeCreates(fs);
  }

  /** A path outside what the monaco paragraph can create is not created by it. */
  lemma MonacoAvoids(fs: set<Path>, p: Path)
    requires p !in {DownloadDir(), CachePath(MonacoArchive()), MonacoDir(), "dist/monaco-editor"}
    ensures p !in CreatedBy(MonacoPlan(fs))
  {
    MonacoCreates(fs);
  }

  /** A path outside what the jquery paragraph can create is not created by it. */
  lemma JqueryAvoids(fs: set<Path>, p: Path)
    requires p !in {DownloadDir(), CachePath(JqueryFile())}
    ensures p !in CreatedBy(JqueryPlan(fs))
  {
    JqueryCreates(fs);
  }

  /** A path that no paragraph before golden-layout's can create is not created by them. */
  lemma BeforeGoldenLayoutAvoids(fs: set<Path>, p: Path)
    requires p !in {DistDir(), DownloadDir(), CachePath(NodeArchive()), BuildDir(), NodeDir(), "build/node"}
    requires p !in {CachePath(MonacoArchive()), MonacoDir(), "dist/monaco-editor", CachePath(JqueryFile())}
    ensures p !in CreatedBy([MakeDir(DistDir())] + NodePlan(fs) + MonacoPlan(fs) + JqueryPlan(fs))
  {
    var p1 := [MakeDir(DistDir())];
    var p2 := p1 + NodePlan(fs);
    assert CreatedBy(p1) == {DistDir()};
    NodeAvoids(fs, p);
    MonacoAvoids(fs, p);
    JqueryAvoids(fs, p);
    NotCreatedByEither(p1, NodePlan(fs), p);
    NotCreatedByEither(p2, MonacoPlan(fs), p);
    NotCreatedByEither(p2 + MonacoPlan(fs), JqueryPlan(fs), p);
  }

  /** What precedes the monaco paragraph leaves its markers alone. */
  lemma NodeLeavesMonaco(fs: set<Path>)
    ensures var p2 := [MakeDir(DistDir())] + NodePlan(fs);
            CachePath(MonacoArchive()) !in CreatedBy(p2) && MonacoDir() !in CreatedBy(p2)
  {
    var p1 := [MakeDir(DistDir())];
    assert CreatedBy(p1) == {DistDir()};
    assert |CachePath(MonacoArchive())| == 33 && |MonacoDir()| == 29;
    NodeAvoids(fs, CachePath(MonacoArchive()));
    NodeAvoids(fs, MonacoDir());
    NotCreatedByEither(p1, NodePlan(fs), CachePath(MonacoArchive()));
    NotCreatedByEither(p1, NodePlan(fs), MonacoDir());
  }

  /** What precedes the jquery paragraph leaves its marker alone. */
  lemma MonacoLeavesJquery(fs: set<Path>)
    ensures var p3 := [MakeDir(DistDir())] + NodePlan(fs) + MonacoPlan(fs);
            CachePath(JqueryFile()) !in CreatedBy(p3)
  {
    var p1 := [MakeDir(DistDir())];
    var m := CachePath(JqueryFile());
    assert CreatedBy(p1) == {DistDir()};
    assert |m| == 29 && m[9] == 'j' && MonacoDir()[9] == 'm';
    NodeAvoids(fs, m);
    MonacoAvoids(fs, m);
    NotCreatedByEither(p1, NodePlan(fs), m);
    NotCreatedByEither(p1 + NodePlan(fs), MonacoPlan(fs), m);
  }

  /** What precedes the golden-layout paragraph leaves its markers alone. */
  lemma JqueryLeavesGoldenLayout(fs: set<Path>)
    ensures var p4 := [MakeDir(DistDir())] + NodePlan(fs) + MonacoPlan(fs) + JqueryPlan(fs);
            CachePath(GoldenLayoutArchive()) !in CreatedBy(p4) && GoldenLayoutDir() !in CreatedBy(p4)
  {
    var a := CachePath(GoldenLayoutArchive());
    var g := GoldenLayoutDir();
    assert |a| == 36 && |g| == 28 && g[0] == 'd' && NodeDir()[0] == 'b';
    BeforeGoldenLayoutAvoids(fs, a);
    BeforeGoldenLayoutAvoids(fs, g);
  }

  /*
   * Each stage of `main`, as `RunStage` sees it, is its method's plan.
   */
  lemma CloneRuns(w: World, status: Oracle)
    ensures RunStage(w, Stage.Clone, StagePlan, status) == ExecAll(w, ClonePlan(w.fs, Repos(), UseTag()), status)
  {
  }
  lemma CmakeRuns(w: World, status: Oracle)
    ensures RunStage(w, Stage.Cmake, StagePlan, status) == ExecAll(w, CmakePlan(w.fs), status)
  {
  }
  lemma LlvmRuns(w: World, status: Oracle)
    ensures RunStage(w, Stage.Llvm, StagePlan, status) == ExecAll(w, LlvmPlan(w.fs), status)
  {
  }
  lemma BinaryenRuns(w: World, status: Oracle)
    ensures RunStage(w, Stage.Binaryen, StagePlan, status) == ExecAll(w, BinaryenPlan(w.fs), status)
  {
  }
  lemma EmscriptenRuns(w: World, status: Oracle)
    ensures RunStage(w, Stage.Emscripten, StagePlan, status) == ExecAll(w, EmscriptenPlan(w.fs), status)
  {
  }
  lemma ToolsRuns(w: World, status: Oracle)
    ensures RunStage(w, Stage.Tools, StagePlan, status) == ExecAll(w, ToolsPlan(w.fs), status)
  {
  }
  lemma LlvmBrowserRuns(w: World, status: Oracle)
    ensures RunStage(w, Stage.LlvmBrowser, StagePlan, status) == ExecAll(w, LlvmBrowserPlan(w.fs), status)
  {
  }
  lemma DistRuns(w: World, status: Oracle)
    ensures RunStage(w, Stage.Dist, StagePlan, status) == ExecAll(w, DistPlan(w.fs), status)
  {
  }
  lemma RtlRuns(w: World, status: Oracle)
    ensures RunStage(w, Stage.Rtl, StagePlan, status) == ExecAll(w, RtlPlan(w.fs), status)
  {
  }
  lemma AppClangFormatRuns(w: World, status: Oracle)
    ensures RunStage(w, Stage.AppClangFormat, StagePlan, status) == ExecAll(w, AppClangFormatPlan(w.fs), status)
  {
  }
  lemma AppClangRuns(w: World, status: Oracle)
    ensures RunStage(w, Stage.AppClang, StagePlan, status) == ExecAll(w, AppClangPlan(w.fs), status)
  {
  }
  lemma AppRuntimeRuns(w: World, status: Oracle)
    ensures RunStage(w, Stage.AppRuntime, StagePlan, status) == ExecAll(w, AppRuntimePlan(w.fs), status)
  {
  }

  /** `main`'s twelve calls, each run from where the previous one left the process, are `MainStages()` run in order. */
  lemma MainComposes(w0: World, s1: World, s2: World, s3: World, s4: World, s5: World, s6: World,
                     s7: World, s8: World, s9: World, s10: World, s11: World, s12: World, plan: Planner, status: Oracle)
    requires s1 == RunStage(w0, Stage.Clone, plan, status)
    requires s2 == RunStage(s1, Stage.Cmake, plan, status)
    requires s3 == RunStage(s2, Stage.Llvm, plan, status)
    requires s4 == RunStage(s3, Stage.Binaryen, plan, status)
    requires s5 == RunStage(s4, Stage.Emscripten, plan, status)
    requires s6 == RunStage(s5, Stage.Tools, plan, status)
    requires s7 == RunStage(s6, Stage.LlvmBrowser, plan, status)
    requires s8 == RunStage(s7, Stage.Dist, plan, status)
    requires s9 == RunStage(s8, Stage.Rtl, plan, status)
    requires s10 == RunStage(s9, Stage.AppClangFormat, plan, status)
    requires s11 == RunStage(s10, Stage.AppClang, plan, status)
    requires s12 == RunStage(s11, Stage.AppRuntime, plan, status)
    ensures s12 == RunStages(w0, MainStages(), plan, status)
  {
    var ss := MainStages();
    assert ss[0..][1..] == ss[1..];
    assert RunStages(w0, ss[0..], plan, status) == RunStages(s1, ss[1..], plan, status);
    assert ss[1..][1..] == ss[2..];
    assert RunStages(s1, ss[1..], plan, status) == RunStages(s2, ss[2..], plan, status);
    assert ss[2..][1..] == ss[3..];
    assert RunStages(s2, ss[2..], plan, status) == RunStages(s3, ss[3..], plan, status);
    assert ss[3..][1..] == ss[4..];
    assert RunStages(s3, ss[3..], plan, status) == RunStages(s4, ss[4..], plan, status);
    assert ss[4..][1..] == ss[5..];
    assert RunStages(s4, ss[4..], plan, status) == RunStages(s5, ss[5..], plan, status);
    assert ss[5..][1..] == ss[6..];
    assert RunStages(s5, ss[5..], plan, status) == RunStages(s6, ss[6..], plan, status);
    assert ss[6..][1..] == ss[7..];
    assert RunStages(s6, ss[6..], plan, status) == RunStages(s7, ss[7..], plan, status);
    assert ss[7..][1..] == ss[8..];
    assert RunStages(s7, ss[7..], plan, status) == RunStages(s8, ss[8..], plan, status);
    assert ss[8..][1..] == ss[9..];
    assert RunStages(s8, ss[8..], plan, status) == RunStages(s9, ss[9..], plan, status);
    assert ss[9..][1..] == ss[10..];
    assert RunStages(s9, ss[9..], plan, status) == RunStages(s10, ss[10..], plan, status);
    assert ss[10..][1..] == ss[11..];
    assert RunStages(s10, ss[10..], plan, status) == RunStages(s11, ss[11..], plan, status);
    assert ss[11..][1..] == ss[12..];
    assert RunStages(s11, ss[11..], plan, status) == RunStages(s12, ss[12..], plan, status);
  }

  class Build {
    /** The paths that exist, relative to the repository root. */
    var fs: set<Path>
    /** Every command issued so far, in order. */
    var log: seq<Command>
    /** Whether the process has exited on a failed command. */
    var halted: bool
    var exitCode: int
    /** The exit status of the command issued at a given position of the log, and what it leaves when it fails. */
    const status: Oracle
    /** What that command prints on its standard output. */
    const output: (nat, Command) -> string

    function State(): World
      reads this
    {
      World(fs, log, halted, exitCode)
    }

    /** The process at start-up: nothing issued yet, exit code 0. */
    constructor (fs0: set<Path>, status: Oracle, output: (nat, Command) -> string)
      ensures State() == World(fs0, [], false, 0) && Consistent(State())
      ensures this.status == status && this.output == output
    {
      this.fs := fs0;
      this.log := [];
      this.halted := false;
      this.exitCode := 0;
      this.status := status;
      this.output := output;
    }

    /**
     * `run(args)`: issue the command; a non-zero status ends the process with
     * exit code 1. After the process has ended nothing is issued any more.
     */
    method Run(c: Command)
      modifies this
      ensures State() == Exec(old(State()), c, status)
    {
      if !halted {
        var n := |log|;
        var code := status.exit(n, c);
        log := log + [c];
        if code == 0 {
          fs := fs + Creates(c);
        } else {
          fs := fs + Creates(c) * status.leftover(n, c);
          halted := true;
          exitCode := 1;
        }
      }
    }

    /**
     * `getOutput(args)`: the same fail-fast rule as `run`, and on success
     * the command's standard output.
     */
    method GetOutput(c: Command) returns (out: Option<string>)
      modifies this
      ensures State() == Exec(old(State()), c, status)
      ensures out.Some? <==> !halted
      ensures out.Some? ==> out.value == output(|old(log)|, c)
    {
      out := None;
      if !halted {
        var n := |log|;
        var code := status.exit(n, c);
        log := log + [c];
        if code == 0 {
          fs := fs + Creates(c);
          out := Some(output(n, c));
        } else {
          fs := fs + Creates(c) * status.leftover(n, c);
          halted := true;
          exitCode := 1;
        }
      }
    }

    /** `run(c)`, keeping track (for the proofs) of the commands issued since `w0`. */
    method Issue(c: Command, ghost w0: World, ghost done: seq<Command>) returns (ghost done': seq<Command>)
      modifies this
      requires State() == ExecAll(w0, done, status)
      ensures done' == done + [c]
      ensures State() == ExecAll(w0, done', status)
    {
      Run(c);
      ExecAllSnoc(w0, done, c, status);
      done' := done + [c];
    }

    /** `download(url, basename)`: fetch into the cache unless the file is already there. */
    method Download(url: Url, basename: Option<string>)
      modifies this
      ensures State() == ExecAll(old(State()), DownloadPlan(old(fs), url, basename), status)
    {
      ghost var w0 := State();
      ghost var d: seq<Command> := [];
      var name := DownloadName(url, basename);
      ghost var plan := DownloadPlan(w0.fs, url, basename);
      assert plan == if CachePath(name) in w0.fs then [] else [MakeDir(DownloadDir()), Fetch(url, name)];
      if CachePath(name) !in fs {
        d := Issue(MakeDir(DownloadDir()), w0, d);
        d := Issue(Fetch(url, name), w0, d);
        assert d == plan;
      } else {
        assert plan == [];
      }
    }

    /** One pass of `clone()`'s loop: a repository whose directory exists is left alone; any other is cloned, given its upstream remote, and checked out at its ref. */
    method CloneRepo(r: RepoSpec, tag: Option<string>)
      modifies this
      ensures State() == CloneOne(old(State()), r, tag, status)
    {
      ghost var s := State();
      if r.path !in fs {
        var ref := ResolveRef(tag, r);
        var dir := Dirname(r.path);
        var base := Basename(r.path);
        ghost var d: seq<Command> := [];
        d := Issue(MakeDir(dir), s, d);
        d := Issue(GitClone(dir, GitProtocol() + r.url, base), s, d);
        d := Issue(AddUpstream(r.path, GitProtocol() + r.upstream), s, d);
        d := Issue(Checkout(r.path, ref), s, d);
        assert d == RepoCommands(r, tag);
      }
    }

    /**
     * `clone()`'s loop over a list of repositories: for each in order, skip
     * it when its directory exists, otherwise create the parent directory,
     * clone the fork, add the upstream remote and check out the resolved ref.
     */
    method CloneList(repos: seq<RepoSpec>, tag: Option<string>)
      modifies this
      ensures State() == ExecAll(old(State()), ClonePlan(old(fs), repos, tag), status)
    {
      ghost var w0 := State();
      var i := 0;
      while i < |repos|
        invariant 0 <= i <= |repos|
        invariant State() == CloneFrom(w0, repos[..i], tag, status)
      {
        var r := repos[i];
        CloneRepo(r, tag);
        CloneFromSnoc(w0, repos[..i], r, tag, status);
        assert repos[..i + 1] == repos[..i] + [r];
        i := i + 1;
      }
      assert repos[..i] == repos;
      CloneFromIsPlan(w0, repos, tag, status);
    }

    /** `clone()`: the loop over the script's repository list and release tag. */
    method Clone()
      modifies this
      ensures State() == ExecAll(old(State()), ClonePlan(old(fs), Repos(), UseTag()), status)
    {
      CloneList(Repos(), UseTag());
    }

    /** `llvm()`: configure once, always compile, install once. */
    method Llvm()
      modifies this
      ensures State() == ExecAll(old(State()), LlvmPlan(old(fs)), status)
    {
      ghost var w0 := State();
      ghost var d: seq<Command> := [];
      if LlvmBuild() !in fs {
        d := Issue(MakeDir(LlvmBuild()), w0, d);
        d := Issue(LlvmConfigure(), w0, d);
      }
      assert d == Gated(w0.fs, LlvmBuild(), [LlvmConfigure()]);
      d := Issue(LlvmCompile(), w0, d);
      NotCreatedBy(d, LlvmInstall());
      UnlessStep(w0, d, LlvmInstall(), [MakeDir(LlvmInstall()), LlvmInstallAll()], status);
      ghost var s := State();
      ghost var e: seq<Command> := [];
      if LlvmInstall() !in fs {
        e := Issue(MakeDir(LlvmInstall()), s, e);
        e := Issue(LlvmInstallAll(), s, e);
      }
      assert [MakeDir(LlvmInstall())] + [LlvmInstallAll()] == [MakeDir(LlvmInstall()), LlvmInstallAll()];
    }
  
    /** `cmake()`: fetch the sources, then unpack, bootstrap, build and install unless unpacked already. */
    method Cmake()
      modifies this
      ensures State() == ExecAll(old(State()), CmakePlan(old(fs)), status)
    {
      ghost var w0 := State();
      Download(CmakeUrl(), None);
      ghost var d := DownloadPlan(w0.fs, CmakeUrl(), None);
      CmakeArchiveName();
      DownloadCreates(w0.fs, CmakeUrl(), None);
      UnlessStep(w0, d, CmakeSource(), CmakeUnpack(), status);
      ghost var s := State();
      ghost var e: seq<Command> := [];
      if !(CmakeSource() in fs) {
        e := Issue(MakeDir(BuildDir()), s, e);
        e := Issue(Shell(187, {CmakeSource()}), s, e);
        e := Issue(Shell(188, {}), s, e);
        e := Issue(Shell(189, {}), s, e);
        e := Issue(Shell(190, {}), s, e);
        assert e == CmakeUnpack();
      }
    }

    /** `binaryen()`: configure once, always compile, install once. */
    method Binaryen()
      modifies this
      ensures State() == ExecAll(old(State()), BinaryenPlan(old(fs)), status)
    {
      ghost var w0 := State();
      ghost var d: seq<Command> := [];
      if BinaryenBuild() !in fs {
        d := Issue(MakeDir(BinaryenBuild()), w0, d);
        d := Issue(Configure(BinaryenBuild(), "repos/binaryen"), w0, d);
      }
      assert d == Gated(w0.fs, BinaryenBuild(), [Configure(BinaryenBuild(), "repos/binaryen")]);
      d := Issue(BinaryenCompile(), w0, d);
      NotCreatedBy(d, BinaryenInstall());
      UnlessStep(w0, d, BinaryenInstall(), [MakeDir(BinaryenInstall()), Install(BinaryenBuild(), ["install"])], status);
      ghost var s := State();
      ghost var e: seq<Command> := [];
      if BinaryenInstall() !in fs {
        e := Issue(MakeDir(BinaryenInstall()), s, e);
        e := Issue(Install(BinaryenBuild(), ["install"]), s, e);
      }
      assert [MakeDir(BinaryenInstall())] + [Install(BinaryenBuild(), ["install"])]
          == [MakeDir(BinaryenInstall()), Install(BinaryenBuild(), ["install"])];
    }

    /**
     * `emscripten()`: configure and build the optimizer as `llvm` does; the
     * first time, let `em++` write its configuration file and compile a
     * sample. The line the script appends to that file is not modelled.
     */
    method Emscripten()
      modifies this
      ensures State() == ExecAll(old(State()), EmscriptenPlan(old(fs)), status)
    {
      ghost var w0 := State();
      ghost var d: seq<Command> := [];
      if OptimizerBuild() !in fs {
        d := Issue(MakeDir(OptimizerBuild()), w0, d);
        d := Issue(Configure(OptimizerBuild(), "repos/emscripten/tools/optimizer"), w0, d);
      }
      assert d == Gated(w0.fs, OptimizerBuild(), [Configure(OptimizerBuild(), "repos/emscripten/tools/optimizer")]);
      d := Issue(OptimizerCompile(), w0, d);
      NotCreatedBy(d, ConfigFile());
      UnlessStep(w0, d, ConfigFile(), EmscriptenConfig(), status);
      ghost var s := State();
      ghost var e: seq<Command> := [];
      if ConfigFile() !in fs {
        e := Issue(Shell(227, {ConfigFile()}), s, e);
        e := Issue(MakeDir("build/dummy"), s, e);
        e := Issue(Shell(231, {}), s, e);
        assert e == EmscriptenConfig();
      }
    }

    /** `tools()`: configure once, always compile the three tools. */
    method Tools()
      modifies this
      ensures State() == ExecAll(old(State()), ToolsPlan(old(fs)), status)
    {
      ghost var w0 := State();
      ghost var d: seq<Command> := [];
      if ToolsBuild() !in fs {
        d := Issue(MakeDir(ToolsBuild()), w0, d);
        d := Issue(Configure(ToolsBuild(), "src"), w0, d);
      }
      assert d == Gated(w0.fs, ToolsBuild(), [Configure(ToolsBuild(), "src")]);
      d := Issue(ToolsCompile(), w0, d);
    }

    /** `llvmBrowser()`: configure once, always compile the browser targets. */
    method LlvmBrowser()
      modifies this
      ensures State() == ExecAll(old(State()), LlvmBrowserPlan(old(fs)), status)
    {
      ghost var w0 := State();
      ghost var d: seq<Command> := [];
      if LlvmBrowserBuild() !in fs {
        d := Issue(MakeDir(LlvmBrowserBuild()), w0, d);
        d := Issue(Configure(LlvmBrowserBuild(), "repos/llvm"), w0, d);
      }
      assert d == Gated(w0.fs, LlvmBrowserBuild(), [Configure(LlvmBrowserBuild(), "repos/llvm")]);
      d := Issue(LlvmBrowserCompile(), w0, d);
    }

    /** `node()`: fetch node, and unpack it and install browserify unless unpacked already. */
    method Node()
      modifies this
      ensures State() == ExecAll(old(State()), NodePlan(old(fs)), status)
    {
      ghost var w0 := State();
      Download(NodeUrl(), None);
      ghost var d := DownloadPlan(w0.fs, NodeUrl(), None);
      NodeArchiveName();
      DownloadCreates(w0.fs, NodeUrl(), None);
      UnlessStep(w0, d, NodeDir(), NodeUnpack(), status);
      ghost var s := State();
      ghost var e: seq<Command> := [];
      if !(NodeDir() in fs) {
        e := Issue(MakeDir(BuildDir()), s, e);
        e := Issue(Shell(275, {NodeDir()}), s, e);
        e := Issue(Shell(276, {"build/node"}), s, e);
        e := Issue(Shell(277, {}), s, e);
        assert e == NodeUnpack();
      }
    }

    /** The monaco-editor paragraph of `dist()`. */
    method Monaco()
      modifies this
      ensures State() == ExecAll(old(State()), MonacoPlan(old(fs)), status)
    {
      ghost var w0 := State();
      Download(MonacoUrl(), None);
      ghost var d := DownloadPlan(w0.fs, MonacoUrl(), None);
      MonacoArchiveName();
      DownloadCreates(w0.fs, MonacoUrl(), None);
      assert MonacoDir() != CachePath(MonacoArchive()) by {
        assert |MonacoDir()| < |CachePath(MonacoArchive())|;
      }
      UnlessStep(w0, d, MonacoDir(), [MakeDir(MonacoDir())] + MonacoUnpack(), status);
      ghost var s := State();
      ghost var e: seq<Command> := [];
      if !(MonacoDir() in fs) {
        e := Issue(MakeDir(MonacoDir()), s, e);
        e := Issue(Shell(286, {}), s, e);
        assert e == [MakeDir(MonacoDir())] + MonacoUnpack();
      }
      d := d + Gated(w0.fs, MonacoDir(), MonacoUnpack());
      ghost var t := State();
      ghost var c: seq<Command> := [];
      c := Issue(MakeDir("dist/monaco-editor"), t, c);
      c := Issue(Shell(288, {}), t, c);
      c := Issue(Shell(289, {}), t, c);
      c := Issue(Shell(290, {}), t, c);
      c := Issue(Shell(291, {}), t, c);
      assert c == MonacoCopies();
      ExecAllAppend(w0, d, c, status);
    }

    /** The jquery paragraph of `dist()`. */
    method Jquery()
      modifies this
      ensures State() == ExecAll(old(State()), JqueryPlan(old(fs)), status)
    {
      ghost var w0 := State();
      Download(JqueryUrl(), None);
      ghost var d := DownloadPlan(w0.fs, JqueryUrl(), None);
      d := Issue(JqueryCopy(), w0, d);
    }

    /** The golden-layout paragraph of `dist()`. */
    method GoldenLayout()
      modifies this
      ensures State() == ExecAll(old(State()), GoldenLayoutPlan(old(fs)), status)
    {
      ghost var w0 := State();
      Download(GoldenLayoutUrl(), Some(GoldenLayoutArchive()));
      ghost var d := DownloadPlan(w0.fs, GoldenLayoutUrl(), Some(GoldenLayoutArchive()));
      GoldenLayoutArchiveName();
      DownloadCreates(w0.fs, GoldenLayoutUrl(), Some(GoldenLayoutArchive()));
      UnlessStep(w0, d, GoldenLayoutDir(), GoldenLayoutUnpack(), status);
      ghost var s := State();
      ghost var e: seq<Command> := [];
      if !(GoldenLayoutDir() in fs) {
        e := Issue(Shell(298, {GoldenLayoutDir()}), s, e);
        assert e == GoldenLayoutUnpack();
      }
      d := d + Unless(w0.fs, GoldenLayoutDir(), GoldenLayoutUnpack());
      ghost var t := State();
      ghost var c: seq<Command> := [];
      c := Issue(MakeDir("dist/golden-layout"), t, c);
      c := Issue(Shell(300, {}), t, c);
      c := Issue(Shell(301, {}), t, c);
      c := Issue(Shell(302, {}), t, c);
      c := Issue(Shell(303, {}), t, c);
      assert c == GoldenLayoutCopies();
      ExecAllAppend(w0, d, c, status);
    }

    /**
     * `dist()`: create `dist`, run `node()`, then fetch, unpack and copy
     * monaco-editor, jquery and golden-layout, and copy the local files.
     */
    method Dist()
      modifies this
      ensures State() == ExecAll(old(State()), DistPlan(old(fs)), status)
    {
      ghost var w0 := State();
      ghost var d: seq<Command> := [];
      d := Issue(MakeDir(DistDir()), w0, d);
      assert d == [MakeDir(DistDir())];
      DistHeadLeavesNode();
      NodeResumes(w0, d, status);
      Node();
      d := d + NodePlan(w0.fs);
      NodeLeavesMonaco(w0.fs);
      MonacoResumes(w0, d, status);
      Monaco();
      d := d + MonacoPlan(w0.fs);
      MonacoLeavesJquery(w0.fs);
      JqueryResumes(w0, d, status);
      Jquery();
      d := d + JqueryPlan(w0.fs);
      JqueryLeavesGoldenLayout(w0.fs);
      GoldenLayoutResumes(w0, d, status);
      GoldenLayout();
      d := d + GoldenLayoutPlan(w0.fs);
      LocalFiles();
      ExecAllAppend(w0, d, LocalCopies(), status);
    }

    /** The paragraph of `dist()` that copies the repository's own files and binaryen's. */
    method LocalFiles()
      modifies this
      ensures State() == ExecAll(old(State()), LocalCopies(), status)
    {
      ghost var t := State();
      ghost var c: seq<Command> := [];
      c := Issue(MakeDir("dist/zip.js"), t, c);
      c := Issue(Shell(306, {}), t, c);
      c := Issue(Shell(307, {}), t, c);
      c := Issue(Shell(308, {}), t, c);
      c := Issue(Shell(309, {}), t, c);
      c := Issue(Shell(310, {}), t, c);
      c := Issue(Shell(312, {}), t, c);
      c := Issue(Shell(313, {}), t, c);
      assert c == LocalCopies();
    }

    /** `rtl()`: configure once, always compile. */
    method Rtl()
      modifies this
      ensures State() == ExecAll(old(State()), RtlPlan(old(fs)), status)
    {
      ghost var w0 := State();
      ghost var d: seq<Command> := [];
      if RtlBuild() !in fs {
        d := Issue(MakeDir(RtlBuild()), w0, d);
        d := Issue(Configure(RtlBuild(), "src/rtl"), w0, d);
      }
      assert d == Gated(w0.fs, RtlBuild(), [Configure(RtlBuild(), "src/rtl")]);
      d := Issue(RtlCompile(), w0, d);
    }

    /**
     * `app(name, buildType, buildDir, prepBuildDir, env)`: configure once,
     * run the preparation (`prep`, the commands `prepBuildDir` issues),
     * always compile `name`, and create `dist` if it is still missing.
     */
    method App(name: string, buildDir: Path, prep: seq<Command>, env: string)
      modifies this
      ensures State() == ExecAll(old(State()), AppPlan(old(fs), name, buildDir, prep, env), status)
    {
      ghost var w0 := State();
      ghost var d: seq<Command> := [];
      if buildDir !in fs {
        d := Issue(MakeDir(buildDir), w0, d);
        d := Issue(Configure(buildDir, "src"), w0, d);
      }
      assert d == Gated(w0.fs, buildDir, [Configure(buildDir, "src")]);
      ghost var g := d;
      var i := 0;
      while i < |prep|
        invariant 0 <= i <= |prep|
        invariant d == g + prep[..i]
        invariant State() == ExecAll(w0, d, status)
      {
        d := Issue(prep[i], w0, d);
        assert prep[..i + 1] == prep[..i] + [prep[i]];
        i := i + 1;
      }
      assert prep[..i] == prep;
      d := Issue(Compile(buildDir, [name], env), w0, d);
      UnlessAfter(w0, d, DistDir(), [MakeDir(DistDir())], status);
      ghost var s := State();
      ghost var e: seq<Command> := [];
      if DistDir() !in fs {
        e := Issue(MakeDir(DistDir()), s, e);
      }
    }

    /** `appClangFormat()`: the clang-format app, then its two files copied into `dist`. */
    method AppClangFormat()
      modifies this
      ensures State() == ExecAll(old(State()), AppClangFormatPlan(old(fs)), status)
    {
      ghost var w0 := State();
      App("clang-format", ClangFormatBuild(), [], "");
      ghost var d := AppPlan(w0.fs, "clang-format", ClangFormatBuild(), [], "");
      d := Issue(Shell(343, {}), w0, d);
      assert d == AppClangFormatPlan(w0.fs);
    }

    /**
     * `appClang()`: the clang app, whose preparation creates the system
     * directories and copies emscripten's headers into them; then the
     * re-optimised binary and the rest copied into `dist`.
     */
    method AppClang()
      modifies this
      ensures State() == ExecAll(old(State()), AppClangPlan(old(fs)), status)
    {
      ghost var w0 := State();
      App("clang", ClangBuild(), ClangPrep(), "");
      ghost var d := AppPlan(w0.fs, "clang", ClangBuild(), ClangPrep(), "");
      d := Issue(ClangReopt(ReoptClang), w0, d);
      d := Issue(Shell(356, {}), w0, d);
      d := Issue(Shell(357, {}), w0, d);
      assert d == AppClangPlan(w0.fs);
    }

    /** `appRuntime()`: the runtime app, built with the forced standard libraries, then copied into `dist`. */
    method AppRuntime()
      modifies this
      ensures State() == ExecAll(old(State()), AppRuntimePlan(old(fs)), status)
    {
      ghost var w0 := State();
      App("runtime", RuntimeBuild(), [], RuntimeEnv());
      ghost var d := AppPlan(w0.fs, "runtime", RuntimeBuild(), [], RuntimeEnv());
      d := Issue(Shell(361, {}), w0, d);
      d := Issue(Shell(362, {}), w0, d);
      assert d == AppRuntimePlan(w0.fs);
    }

    /**
     * `main()`: the twelve stages in their fixed order. A failed command ends
     * the process, so no later stage issues anything.
     */
    method RunMain()
      modifies this
      ensures State() == MainRun(old(State()), status)
    {
      ghost var w0 := State();
      Clone();
      CloneRuns(w0, status);
      ghost var s1 := State();
      Cmake();
      CmakeRuns(s1, status);
      ghost var s2 := State();
      Llvm();
      LlvmRuns(s2, status);
      ghost var s3 := State();
      Binaryen();
      BinaryenRuns(s3, status);
      ghost var s4 := State();
      Emscripten();
      EmscriptenRuns(s4, status);
      ghost var s5 := State();
      Tools();
      ToolsRuns(s5, status);
      ghost var s6 := State();
      LlvmBrowser();
      LlvmBrowserRuns(s6, status);
      ghost var s7 := State();
      Dist();
      DistRuns(s7, status);
      ghost var s8 := State();
      Rtl();
      RtlRuns(s8, status);
      ghost var s9 := State();
      AppClangFormat();
      AppClangFormatRuns(s9, status);
      ghost var s10 := State();
      AppClang();
      AppClangRuns(s10, status);
      ghost var s11 := State();
      AppRuntime();
      AppRuntimeRuns(s11, status);
      MainComposes(w0, s1, s2, s3, s4, s5, s6, s7, s8, s9, s10, s11, State(), StagePlan, status);
    }
  }
}
