/**
 * `main` in build.py: the stages in a fixed order, each deciding what to
 * issue from the paths the earlier ones left behind, the whole run ending
 * at the first failing command. Also what a second run on the same tree
 * does: only the steps every stage repeats unconditionally.
 */
module Pipeline {
  import opened Paths
  import opened Commands
  import opened Executor
  import opened Cache
  import opened Provision
  import opened RepoList
  import opened Stages
  import opened Settling

  datatype Stage =
    | Clone | Cmake | Llvm | Binaryen | Emscripten | Tools | LlvmBrowser
    | Dist | Rtl | AppClangFormat | AppClang | AppRuntime

  /** The stages in the order `main` calls them. */
  function MainStages(): seq<Stage> {
      [Clone, Cmake, Llvm, Binaryen, Emscripten, Tools, LlvmBrowser, Dist, Rtl, AppClangFormat, AppClang, AppRuntime]
  }

  /** What a stage issues when all its commands succeed, from the paths that exist when it starts. */
  function StagePlan(s: Stage, fs: set<Path>): seq<Command> {
    match s
    case Clone => ClonePlan(fs, Repos(), UseTag())
    case Cmake => CmakePlan(fs)
    case Llvm => LlvmPlan(fs)
    case Binaryen => BinaryenPlan(fs)
    case Emscripten => EmscriptenPlan(fs)
    case Tools => ToolsPlan(fs)
    case LlvmBrowser => LlvmBrowserPlan(fs)
    case Dist => DistPlan(fs)
    case Rtl => RtlPlan(fs)
    case AppClangFormat => AppClangFormatPlan(fs)
    case AppClang => AppClangPlan(fs)
    case AppRuntime => AppRuntimePlan(fs)
  }

  /**
   * How each stage chooses its commands. `main` runs with `StagePlan`; the
   * lemmas about running stages in sequence hold for any planner, and take
   * what they need of it as preconditions.
   */
  type Planner = (Stage, set<Path>) -> seq<Command>

  /** One stage, run on the world as the earlier stages left it. */
  function RunStage(w: World, s: Stage, plan: Planner, status: Oracle): World {
    ExecAll(w, plan(s, w.fs), status)
  }

  /** Stages run one after the other. */
  function RunStages(w: World, ss: seq<Stage>, plan: Planner, status: Oracle): World
    decreases |ss|
  {
    if ss == [] then w else RunStages(RunStage(w, ss[0], plan, status), ss[1..], plan, status)
  }

  lemma {:induction false} RunStagesHalted(w: World, ss: seq<Stage>, plan: Planner, status: Oracle)
    requires w.halted
    ensures RunStages(w, ss, plan, status) == w
    decreases |ss|
  {
    if ss != [] {
      ExecAllHalted(w, plan(ss[0], w.fs), status);
      RunStagesHalted(w, ss[1..], plan, status);
    }
  }

  lemma {:induction false} RunStagesAppend(w: World, a: seq<Stage>, b: seq<Stage>, plan: Planner, status: Oracle)
    ensures RunStages(w, a + b, plan, status) == RunStages(RunStages(w, a, plan, status), b, plan, status)
    decreases |a|
  {
    if a == [] {
      assert a + b == b;
    } else {
      assert (a + b)[1..] == a[1..] + b;
      RunStagesAppend(RunStage(w, a[0], plan, status), a[1..], b, plan, status);
    }
  }

  /** One more stage after some. */
  lemma RunStagesSnoc(w: World, ss: seq<Stage>, s: Stage, plan: Planner, status: Oracle)
    ensures RunStages(w, ss + [s], plan, status) == RunStage(RunStages(w, ss, plan, status), s, plan, status)
  {
    RunStagesAppend(w, ss, [s], plan, status);
    assert [s][1..] == [];
  }

  /**
   * The order of `main`: stage k starts from the world the first k stages
   * left, and adds to the log a prefix of its own plan, computed from the
   * paths that exist at that moment.
   */
  lemma StageSegment(w: World, ss: seq<Stage>, k: int, plan: Planner, status: Oracle)
    requires 0 <= k < |ss|
    ensures var before := RunStages(w, ss[..k], plan, status);
            var after := RunStages(w, ss[..k + 1], plan, status);
            && after == RunStage(before, ss[k], plan, status)
            && before.log <= after.log
            && after.log[|before.log|..] <= plan(ss[k], before.fs)
  {
    assert ss[..k + 1] == ss[..k] + [ss[k]];
    RunStagesAppend(w, ss[..k], [ss[k]], plan, status);
    var before := RunStages(w, ss[..k], plan, status);
    assert RunStages(before, [ss[k]], plan, status) == RunStage(before, ss[k], plan, status) by {
      assert [ss[k]][1..] == [];
    }
    ExecAllIssued(before, plan(ss[k], before.fs), status);
  }

  /** Fail-fast across stages: once a stage has failed, the later stages issue nothing. */
  lemma PipelineStopsAtFailure(w: World, ss: seq<Stage>, k: int, plan: Planner, status: Oracle)
    requires 0 <= k <= |ss|
    requires RunStages(w, ss[..k], plan, status).halted
    ensures RunStages(w, ss, plan, status) == RunStages(w, ss[..k], plan, status)
  {
    assert ss == ss[..k] + ss[k..];
    RunStagesAppend(w, ss[..k], ss[k..], plan, status);
    RunStagesHalted(RunStages(w, ss[..k], plan, status), ss[k..], plan, status);
  }

  /** The process's exit code is 1 exactly when some command failed. */
  lemma {:induction false} RunStagesConsistent(w: World, ss: seq<Stage>, plan: Planner, status: Oracle)
    requires Consistent(w)
    ensures Consistent(RunStages(w, ss, plan, status))
    decreases |ss|
  {
    if ss != [] {
      ExecAllConsistent(w, plan(ss[0], w.fs), status);
      RunStagesConsistent(RunStage(w, ss[0], plan, status), ss[1..], plan, status);
    }
  }

  /** Paths are only ever added, by any number of stages. */
  lemma {:induction false} RunStagesGrows(w: World, ss: seq<Stage>, plan: Planner, status: Oracle)
    ensures w.fs <= RunStages(w, ss, plan, status).fs
    decreases |ss|
  {
    if ss != [] {
      ExecAllFootprint(w, plan(ss[0], w.fs), status);
      RunStagesGrows(RunStage(w, ss[0], plan, status), ss[1..], plan, status);
    }
  }

  /** The paths whose existence makes a stage skip all its one-time work. */
  function Markers(s: Stage): set<Path> {
    match s
    case Clone => RepoPaths(Repos())
    case Cmake => CmakeMarkers()
    case Llvm => LlvmMarkers()
    case Binaryen => BinaryenMarkers()
    case Emscripten => EmscriptenMarkers()
    case Tools => {ToolsBuild()}
    case LlvmBrowser => {LlvmBrowserBuild()}
    case Dist => DistMarkers()
    case Rtl => {RtlBuild()}
    case AppClangFormat => AppMarkers(ClangFormatBuild())
    case AppClang => AppMarkers(ClangBuild())
    case AppRuntime => AppMarkers(RuntimeBuild())
  }

  /** What a stage issues once its markers exist: the steps it repeats on every run. */
  function SteadyPlan(s: Stage): seq<Command> {
    match s
    case Clone => []
    case Cmake => []
    case Llvm => [LlvmCompile()]
    case Binaryen => [BinaryenCompile()]
    case Emscripten => [OptimizerCompile()]
    case Tools => [ToolsCompile()]
    case LlvmBrowser => [LlvmBrowserCompile()]
    case Dist => DistSteady()
    case Rtl => [RtlCompile()]
    case AppClangFormat => AppSteady("clang-format", ClangFormatBuild(), [], "") + ClangFormatCopies()
    case AppClang => AppSteady("clang", ClangBuild(), ClangPrep(), "") + ClangCopies()
    case AppRuntime => AppSteady("runtime", RuntimeBuild(), [], RuntimeEnv()) + RuntimeCopies()
  }

  /** The plans `f` gives several stages, one after the other. */
  function PlansOf(ss: seq<Stage>, f: Stage -> seq<Command>): seq<Command>
    decreases |ss|
  {
    if ss == [] then [] else f(ss[0]) + PlansOf(ss[1..], f)
  }

  /** Whatever markers a stage lacks, its plan creates. */
  lemma StagesProvide()
    ensures forall s, fs :: Markers(s) <= fs + CreatedBy(StagePlan(s, fs))
  {
    forall s, fs
      ensures Markers(s) <= fs + CreatedBy(StagePlan(s, fs))
    {
      match s
      case Clone => CloneStageProvides(fs);
      case Cmake => CmakeStageProvides(fs);
      case Llvm => LlvmStageProvides(fs);
      case Binaryen => BinaryenStageProvides(fs);
      case Emscripten => EmscriptenStageProvides(fs);
      case Tools => ToolsStageProvides(fs);
      case LlvmBrowser => LlvmBrowserStageProvides(fs);
      case Dist => DistStageProvides(fs);
      case Rtl => RtlStageProvides(fs);
      case AppClangFormat => AppClangFormatStageProvides(fs);
      case AppClang => AppClangStageProvides(fs);
      case AppRuntime => AppRuntimeStageProvides(fs);
    }
  }

  /** A stage whose markers all exist issues exactly its steady plan. */
  lemma StagesSteady()
    ensures forall s, fs :: Markers(s) <= fs ==> StagePlan(s, fs) == SteadyPlan(s)
  {
    forall s, fs | Markers(s) <= fs
      ensures StagePlan(s, fs) == SteadyPlan(s)
    {
      match s
      case Clone => CloneStageSteady(fs);
      case Cmake => CmakeStageSteady(fs);
      case Llvm => LlvmStageSteady(fs);
      case Binaryen => BinaryenStageSteady(fs);
      case Emscripten => EmscriptenStageSteady(fs);
      case Tools => ToolsStageSteady(fs);
      case LlvmBrowser => LlvmBrowserStageSteady(fs);
      case Dist => DistStageSteady(fs);
      case Rtl => RtlStageSteady(fs);
      case AppClangFormat => AppClangFormatStageSteady(fs);
      case AppClang => AppClangStageSteady(fs);
      case AppRuntime => AppRuntimeStageSteady(fs);
    }
  }

  /** No stage repeats one-time work once settled. */
  lemma StagesRepeatable()
    ensures forall s :: Repeatable(SteadyPlan(s))
  {
    forall s
      ensures Repeatable(SteadyPlan(s))
    {
      match s
      case Clone => CloneStageRepeatable();
      case Cmake => CmakeStageRepeatable();
      case Llvm => LlvmStageRepeatable();
      case Binaryen => BinaryenStageRepeatable();
      case Emscripten => EmscriptenStageRepeatable();
      case Tools => ToolsStageRepeatable();
      case LlvmBrowser => LlvmBrowserStageRepeatable();
      case Dist => DistStageRepeatable();
      case Rtl => RtlStageRepeatable();
      case AppClangFormat => AppClangFormatStageRepeatable();
      case AppClang => AppClangStageRepeatable();
      case AppRuntime => AppRuntimeStageRepeatable();
    }
  }

  /** Plans that each avoid one-time work avoid it together. */
  lemma {:induction false} PlansOfRepeatable(ss: seq<Stage>, f: Stage -> seq<Command>)
    requires forall s :: Repeatable(f(s))
    ensures Repeatable(PlansOf(ss, f))
    decreases |ss|
  {
    if ss != [] {
      PlansOfRepeatable(ss[1..], f);
      RepeatableAppend(f(ss[0]), PlansOf(ss[1..], f));
    }
  }

  // The three facts above, one stage at a time.

  lemma CloneStageProvides(fs: set<Path>)
    ensures Markers(Clone) <= fs + CreatedBy(StagePlan(Clone, fs))
  {
    CloneProvides(fs);
  }

  lemma CloneStageSteady(fs: set<Path>)
    requires Markers(Clone) <= fs
    ensures StagePlan(Clone, fs) == SteadyPlan(Clone)
  {
    CloneSettled(fs);
  }

  lemma CloneStageRepeatable()
    ensures Repeatable(SteadyPlan(Clone))
  {
  }

  lemma CmakeStageProvides(fs: set<Path>)
    ensures Markers(Cmake) <= fs + CreatedBy(StagePlan(Cmake, fs))
  {
    CmakeProvides(fs);
  }

  lemma CmakeStageSteady(fs: set<Path>)
    requires Markers(Cmake) <= fs
    ensures StagePlan(Cmake, fs) == SteadyPlan(Cmake)
  {
    CmakeSettled(fs);
  }

  lemma CmakeStageRepeatable()
    ensures Repeatable(SteadyPlan(Cmake))
  {
  }

  lemma LlvmStageProvides(fs: set<Path>)
    ensures Markers(Llvm) <= fs + CreatedBy(StagePlan(Llvm, fs))
  {
    LlvmProvides(fs);
  }

  lemma LlvmStageSteady(fs: set<Path>)
    requires Markers(Llvm) <= fs
    ensures StagePlan(Llvm, fs) == SteadyPlan(Llvm)
  {
    LlvmSettled(fs);
  }

  lemma LlvmStageRepeatable()
    ensures Repeatable(SteadyPlan(Llvm))
  {
  }

  lemma BinaryenStageProvides(fs: set<Path>)
    ensures Markers(Binaryen) <= fs + CreatedBy(StagePlan(Binaryen, fs))
  {
    BinaryenProvides(fs);
  }

  lemma BinaryenStageSteady(fs: set<Path>)
    requires Markers(Binaryen) <= fs
    ensures StagePlan(Binaryen, fs) == SteadyPlan(Binaryen)
  {
    BinaryenSettled(fs);
  }

  lemma BinaryenStageRepeatable()
    ensures Repeatable(SteadyPlan(Binaryen))
  {
  }

  lemma EmscriptenStageProvides(fs: set<Path>)
    ensures Markers(Emscripten) <= fs + CreatedBy(StagePlan(Emscripten, fs))
  {
    EmscriptenProvides(fs);
  }

  lemma EmscriptenStageSteady(fs: set<Path>)
    requires Markers(Emscripten) <= fs
    ensures StagePlan(Emscripten, fs) == SteadyPlan(Emscripten)
  {
    EmscriptenSettled(fs);
  }

  lemma EmscriptenStageRepeatable()
    ensures Repeatable(SteadyPlan(Emscripten))
  {
  }

  lemma ToolsStageProvides(fs: set<Path>)
    ensures Markers(Tools) <= fs + CreatedBy(StagePlan(Tools, fs))
  {
    ToolsProvides(fs);
  }

  lemma ToolsStageSteady(fs: set<Path>)
    requires Markers(Tools) <= fs
    ensures StagePlan(Tools, fs) == SteadyPlan(Tools)
  {
  }

  lemma ToolsStageRepeatable()
    ensures Repeatable(SteadyPlan(Tools))
  {
  }

  lemma LlvmBrowserStageProvides(fs: set<Path>)
    ensures Markers(LlvmBrowser) <= fs + CreatedBy(StagePlan(LlvmBrowser, fs))
  {
    LlvmBrowserProvides(fs);
  }

  lemma LlvmBrowserStageSteady(fs: set<Path>)
    requires Markers(LlvmBrowser) <= fs
    ensures StagePlan(LlvmBrowser, fs) == SteadyPlan(LlvmBrowser)
  {
  }

  lemma LlvmBrowserStageRepeatable()
    ensures Repeatable(SteadyPlan(LlvmBrowser))
  {
  }

  lemma DistStageProvides(fs: set<Path>)
    ensures Markers(Dist) <= fs + CreatedBy(StagePlan(Dist, fs))
  {
    DistProvides(fs);
  }

  lemma DistStageSteady(fs: set<Path>)
    requires Markers(Dist) <= fs
    ensures StagePlan(Dist, fs) == SteadyPlan(Dist)
  {
    DistSettled(fs);
  }

  lemma DistStageRepeatable()
    ensures Repeatable(SteadyPlan(Dist))
  {
    DistRepeatable();
  }

  lemma RtlStageProvides(fs: set<Path>)
    ensures Markers(Rtl) <= fs + CreatedBy(StagePlan(Rtl, fs))
  {
    RtlProvides(fs);
  }

  lemma RtlStageSteady(fs: set<Path>)
    requires Markers(Rtl) <= fs
    ensures StagePlan(Rtl, fs) == SteadyPlan(Rtl)
  {
  }

  lemma RtlStageRepeatable()
    ensures Repeatable(SteadyPlan(Rtl))
  {
  }

  lemma AppClangFormatStageProvides(fs: set<Path>)
    ensures Markers(AppClangFormat) <= fs + CreatedBy(StagePlan(AppClangFormat, fs))
  {
    AppProvides(fs, "clang-format", ClangFormatBuild(), [], "", ClangFormatCopies());
  }

  lemma AppClangFormatStageSteady(fs: set<Path>)
    requires Markers(AppClangFormat) <= fs
    ensures StagePlan(AppClangFormat, fs) == SteadyPlan(AppClangFormat)
  {
    AppSettled(fs, "clang-format", ClangFormatBuild(), [], "");
  }

  lemma AppClangFormatStageRepeatable()
    ensures Repeatable(SteadyPlan(AppClangFormat))
  {
    AppRepeatable([], ClangFormatBuild(), "clang-format", "", ClangFormatCopies());
  }

  lemma AppClangStageProvides(fs: set<Path>)
    ensures Markers(AppClang) <= fs + CreatedBy(StagePlan(AppClang, fs))
  {
    AppProvides(fs, "clang", ClangBuild(), ClangPrep(), "", ClangCopies());
  }

  lemma AppClangStageSteady(fs: set<Path>)
    requires Markers(AppClang) <= fs
    ensures StagePlan(AppClang, fs) == SteadyPlan(AppClang)
  {
    AppSettled(fs, "clang", ClangBuild(), ClangPrep(), "");
  }

  lemma AppClangStageRepeatable()
    ensures Repeatable(SteadyPlan(AppClang))
  {
    ClangPrepRepeatable();
    ClangCopiesRepeatable();
    AppRepeatable(ClangPrep(), ClangBuild(), "clang", "", ClangCopies());
  }

  lemma AppRuntimeStageProvides(fs: set<Path>)
    ensures Markers(AppRuntime) <= fs + CreatedBy(StagePlan(AppRuntime, fs))
  {
    AppProvides(fs, "runtime", RuntimeBuild(), [], RuntimeEnv(), RuntimeCopies());
  }

  lemma AppRuntimeStageSteady(fs: set<Path>)
    requires Markers(AppRuntime) <= fs
    ensures StagePlan(AppRuntime, fs) == SteadyPlan(AppRuntime)
  {
    AppSettled(fs, "runtime", RuntimeBuild(), [], RuntimeEnv());
  }

  lemma AppRuntimeStageRepeatable()
    ensures Repeatable(SteadyPlan(AppRuntime))
  {
    AppRepeatable([], RuntimeBuild(), "runtime", RuntimeEnv(), RuntimeCopies());
  }

  /** A stage that does not end the process leaves every one of its markers behind. */
  lemma StageSettles(w: World, s: Stage, plan: Planner, markers: Stage -> set<Path>, status: Oracle)
    requires !w.halted
    requires markers(s) <= w.fs + CreatedBy(plan(s, w.fs))
    ensures var r := RunStage(w, s, plan, status);
            !r.halted ==> markers(s) <= r.fs
  {
    ExecAllCreates(w, plan(s, w.fs), status);
  }

  /**
   * When every stage's plan creates the markers it lacks, a run in which
   * no command failed leaves the markers of all its stages behind.
   */
  lemma {:induction false} RunStagesSettles(w: World, ss: seq<Stage>, plan: Planner, markers: Stage -> set<Path>, status: Oracle)
    requires forall s, fs :: markers(s) <= fs + CreatedBy(plan(s, fs))
    ensures var r := RunStages(w, ss, plan, status);
            !r.halted ==> forall i :: 0 <= i < |ss| ==> markers(ss[i]) <= r.fs
    decreases |ss|
  {
    if ss != [] {
      var w1 := RunStage(w, ss[0], plan, status);
      var r := RunStages(w, ss, plan, status);
      assert r == RunStages(w1, ss[1..], plan, status);
      if w1.halted {
        RunStagesHalted(w1, ss[1..], plan, status);
      } else {
        if w.halted {
          ExecAllHalted(w, plan(ss[0], w.fs), status);
        }
        StageSettles(w, ss[0], plan, markers, status);
        RunStagesSettles(w1, ss[1..], plan, markers, status);
        RunStagesGrows(w1, ss[1..], plan, status);
        if !r.halted {
          forall i | 1 <= i < |ss|
            ensures markers(ss[i]) <= r.fs
          {
            assert ss[i] == ss[1..][i - 1];
          }
        }
      }
    }
  }

  /**
   * When every stage whose markers exist plans its steady steps, a tree
   * holding the markers of all the stages runs exactly those steps.
   */
  lemma {:induction false} RunStagesSettled(w: World, ss: seq<Stage>, plan: Planner, markers: Stage -> set<Path>,
                                            steady: Stage -> seq<Command>, status: Oracle)
    requires forall s, fs :: markers(s) <= fs ==> plan(s, fs) == steady(s)
    requires forall i :: 0 <= i < |ss| ==> markers(ss[i]) <= w.fs
    ensures RunStages(w, ss, plan, status) == ExecAll(w, PlansOf(ss, steady), status)
    decreases |ss|
  {
    if ss != [] {
      var w1 := RunStage(w, ss[0], plan, status);
      ExecAllFootprint(w, steady(ss[0]), status);
      forall i | 0 <= i < |ss[1..]|
        ensures markers(ss[1..][i]) <= w1.fs
      {
        assert ss[1..][i] == ss[i + 1];
      }
      RunStagesSettled(w1, ss[1..], plan, markers, steady, status);
      ExecAllAppend(w, steady(ss[0]), PlansOf(ss[1..], steady), status);
    }
  }

  /** `main`: every stage in order, each choosing its commands with `StagePlan`. */
  function MainRun(w: World, status: Oracle): World {
    RunStages(w, MainStages(), StagePlan, status)
  }

  /**
   * A second `build.py` on a tree the first one finished without error
   * (or on any tree containing it) issues only the steady plans of the
   * stages in order: no clone, fetch, configure or install. Stated for any
   * sequence of stages; `main` runs `MainStages()`.
   */
  lemma SecondRun(w: World, ss: seq<Stage>, status: Oracle, w2: World, status2: Oracle)
    requires !RunStages(w, ss, StagePlan, status).halted
    requires RunStages(w, ss, StagePlan, status).fs <= w2.fs
    ensures RunStages(w2, ss, StagePlan, status2) == ExecAll(w2, PlansOf(ss, SteadyPlan), status2)
    ensures Repeatable(PlansOf(ss, SteadyPlan))
  {
    StagesProvide();
    StagesSteady();
    StagesRepeatable();
    RunStagesSettles(w, ss, StagePlan, Markers, status);
    RunStagesSettled(w2, ss, StagePlan, Markers, SteadyPlan, status2);
    PlansOfRepeatable(ss, SteadyPlan);
  }
}
