# A verified model of build.py's staged build pipeline

`build.py` builds a browser-hosted clang: it clones fourteen repositories,
downloads and unpacks third-party archives, configures and compiles native
and WebAssembly toolchains, and copies the results into `dist`. Everything it
does is issue shell commands. What this project models is the script's
*decisions*: which commands it issues, in what order, and when it stops.

The world the script acts on is a `World` (module `Executor`):

- the set of paths that exist, relative to the repository root;
- the log of every command issued so far;
- whether the process has exited on an error, and its exit code.

Each shell command is a `Command` value (module `Commands`): `mkdir -p`,
`git clone`, `git remote add upstream`, `git checkout`, `wget` into the
download cache, a cmake configure, a ninja compile or install, or any other
command line, named by the source line that issues it. Each command declares
the paths it creates when it succeeds. An oracle parameter `status` gives its
exit status, `status.exit(position in the log, command)`, and, when it fails,
which of its declared paths it leaves behind anyway,
`status.leftover(position in the log, command)`: a partly written `wget -O`
file, a partly unpacked `tar` directory, or a directory made before a later
part of a command line failed.

The model is layered as the script is:

- `Executor`: `run` as a state transformer, and the fail-fast rule over any
  list of commands. A non-zero exit status ends the process with exit code 1,
  and nothing after it is issued.
- `Cache`: `download`, with its destination name and its skip when the file
  is already in `download/`.
- `Provision` and `RepoList`: `clone` over the literal repository list, with
  the ref choice and the four commands issued for a missing repository.
- `Stages`: each stage's *plan*, the list of commands it issues when every
  command succeeds, as a function of the paths that exist when it starts. The
  script's two guards are `Gated` (`mkdir -p <dir>` and then configure, only
  when `<dir>` is missing) and `Unless` (a block issued only when its marker
  path is missing).
- `Settling`: what each stage leaves behind (its *markers*), and what it
  issues once they exist (its *steady plan*: compiles and copies only). A
  command is *one-time work* when it is a clone, upstream, checkout, fetch,
  configure or install, or one of the guarded shell lines that unpack,
  bootstrap, link or install (`Settling.GuardedShellLine`); a steady plan
  holds none of it.
- `Pipeline`: `main`'s fixed stage order, fail-fast across stages, and a
  second run on a finished tree.
- `BuildScript`: the script itself as a class `Build`. Its fields are the
  tree, the log, the halted flag and the exit code. Its methods are `run`,
  `getOutput`, `download`, `clone` and one pass of its loop, each stage, the
  four parts of `dist` plus its local copies, and `main`. Each stage method is
  proved to leave exactly the world its plan leaves under fail-fast, and
  `RunMain` to leave exactly the world that `Pipeline.MainRun` describes.

## Model

| member | source | states |
|---|---|---|
| Paths.Basename | build.py:177 | the result has no '/', is a suffix of the path, and is preceded by '/' whenever it is shorter than the path (`os.path.basename`) |
| Paths.Dirname | build.py:176 | a path with a '/' is its directory, '/', and its basename; a path without one has the empty directory (`os.path.dirname`) |
| Paths.SplitJoin | build.py:176-179 | for a relative path with a directory part, `cd <dirname> && git clone ... <basename>` creates the path itself again |
| Paths.SplitAfterSlash | build.py:147-148 | the last segment of `d/b` is `b` and its directory is `d`, for a `b` without '/' |
| Executor.ExecAllHalted | build.py:131-135 | after the process has exited on an error, no later `run` issues anything or changes anything |
| Executor.ExecAllAppend | build.py:131-135 | running two lists of commands one after the other is running their concatenation |
| Executor.ExecAllSnoc | build.py:131-135 | one more `run` after a list of them |
| Executor.ExecAllIssuesPrefix | build.py:131-135 | a run logs a prefix of its commands; if none fails, all are logged and the tree gains exactly what they create; if one fails, the exit code is 1 |
| Executor.ExecAllStatuses | build.py:131-135 | every logged command but the last exited 0, and the run halted exactly when the last logged one exited non-zero |
| Executor.ExecAllFailFast | build.py:131-135 | fail-fast in full: the log gains a prefix of the commands, all but its last succeeded, the process halted iff that last one failed, and then with exit code 1; otherwise every command was issued and their paths exist |
| Executor.ExecAllFootprint | build.py:131-135 | commands only add paths, and only paths they are declared to create |
| Executor.ExecAllMakes | build.py:131-135 | a run that does not halt leaves behind the paths of each command in it |
| Executor.ExecAllCreates | build.py:131-135 | a run that does not halt adds exactly the paths its commands create |
| Executor.GuardUnaffected | build.py:149 | an existence check reads the same before and after commands that do not create its path |
| Executor.ExecAllIssued | build.py:131-135 | the log only grows, and what a run adds is a prefix of the commands it was given |
| Executor.ExecAllConsistent | build.py:131-135 | the exit code stays 1 exactly when the process has exited on a failed command |
| Cache.DownloadName | build.py:147-148 | an explicit non-empty basename is the destination name |
| Cache.DownloadNameIsBasename | build.py:147-148 | without an explicit name, the destination is the last segment of the URL's path |
| Cache.DownloadProvides | build.py:149-151 | after `download`'s commands the artifact `download/<name>` exists |
| Cache.DownloadCreates | build.py:149-151 | `download` creates at most the cache directory and the artifact |
| Cache.CachedDownloadIssuesNothing | build.py:149 | when `download/<name>` exists, `download` issues nothing and changes nothing |
| Cache.PartialFetchTrusted | build.py:149-151 | when the `wget` fails, the process exits with code 1 after `mkdir -p download` and the `wget`, and the next `download` of the same URL issues nothing exactly when the failed `wget` left its file behind |
| Cache.DownloadLeavesArtifact | build.py:149-151 | a download that does not fail leaves the artifact, so the next call with the same arguments plans nothing |
| Cache.DownloadAtMostOnce | build.py:146-151 | two calls with the same arguments leave the same world as one, and issue at most `mkdir -p download` and one `wget` between them |
| Provision.ResolveRef | build.py:174-175 | the ref is the tag when a non-empty tag is set and the repository is pushable, and the repository's own branch otherwise (both directions) |
| Provision.CloneFromSnoc | build.py:171-181 | the loop over a list with one more repository is one more pass of the loop body |
| Provision.RepoCommandsCreate | build.py:176-179 | the commands for a missing repository create its parent directory and the clone |
| Provision.RepoCommandsTouchOne | build.py:178-181 | the git commands for one repository act on that repository only |
| Provision.CloneFromIsPlan | build.py:170-181 | the loop is its plan (each repository in list order, skipped when its directory exists by then) run under fail-fast |
| Provision.ClonePlanSkipsExisting | build.py:171-173 | no git command of the plan acts on a repository whose directory exists |
| Provision.RepoPathsIndexed | build.py:171-172 | all listed directories exist iff each entry's directory exists |
| Provision.ClonePlanAllPresent | build.py:171-173 | once every listed directory exists, `clone` issues nothing |
| Provision.ClonePlanProvides | build.py:170-181 | after the plan every listed directory exists |
| Provision.TailWellFormed | build.py:153-168 | relative, distinct, parents-first lists stay so without their head |
| Provision.NotParentDir | build.py:176 | a path that no listed repository lies in is not the directory it is cloned into |
| Provision.ClonePlanChecksOutAt | build.py:174-181 | a repository missing at the start is checked out at its resolved ref |
| Provision.LaterStillMissing | build.py:171-179 | cloning the first repository does not create a later missing one |
| Provision.ClonePlanChecksOut | build.py:174-181 | every repository missing at the start is checked out at its resolved ref |
| Provision.CloneProvisions | build.py:170-181 | `clone` end to end: when it finishes without error, its log is its plan, every listed directory exists, and each missing repository was checked out at its ref |
| RepoList.RepoPath | build.py:153-168 | every listed local path lies inside `repos/` |
| RepoList.RepoAt | build.py:153-168 | each entry's path is the listed local path, relative and with a directory part |
| RepoList.ReposRelative | build.py:153-168 | every listed path is relative and has a directory to clone into |
| RepoList.SameFamilyDiffer | build.py:153-168 | two entries of the `repos/llvm` family, or two of the others, have different paths |
| RepoList.ReposDistinct | build.py:153-168 | no two entries share a local path |
| RepoList.LlvmFamilyOrdered | build.py:153-158 | no `repos/llvm` entry lies inside one listed after it |
| RepoList.OthersOrdered | build.py:159-167 | no other entry lies inside one listed after it |
| RepoList.FamilyMark | build.py:153-167 | an entry starts with `repos/llvm` iff it is one of the first six, and the others already differ from them at their seventh character |
| RepoList.ReposParentsFirst | build.py:153-168 | no repository is listed after one it lies in (`repos/llvm` precedes its tools and projects) |
| RepoList.CloneListProvisions | build.py:170-181 | `clone` over the literal list with tag `cib-013`: when it finishes without error every listed repository exists and each missing one was checked out at its ref |
| Stages.CmakeArchiveName | build.py:184 | cmake's archive is cached under the URL's last segment |
| Stages.NodeArchiveName | build.py:272 | node's archive is cached under the URL's last segment |
| Stages.MonacoArchiveName | build.py:283 | monaco-editor's archive is cached under the URL's last segment |
| Stages.JqueryFileName | build.py:293 | jquery is cached under the URL's last segment |
| Stages.GoldenLayoutArchiveName | build.py:296 | the explicit name is used; without it the archive would be cached as `v1.5.9.tar.gz` |
| Stages.UnlessProvides | build.py:185-190 | a block guarded by a path that it creates leaves that path behind |
| Stages.GatedProvides | build.py:193-194 | the `mkdir -p <dir>; configure` idiom always leaves `<dir>` behind |
| Stages.UnlessCreates | build.py:185-190 | a guarded block creates at most what its body creates |
| Stages.GatedCreates | build.py:193-194 | a gated block creates at most its directory and what its body creates |
| Stages.UnlessStep | build.py:185 | an existence check made after earlier commands that do not create its path decides the same |
| Stages.UnlessAfter | build.py:338 | a check placed after commands is evaluated on the tree those commands left |
| Stages.LlvmTwoLevel | build.py:192-204 | configure is planned iff the build directory is missing, install iff the install directory is missing, and compile always |
| Stages.BinaryenTwoLevel | build.py:206-216 | the same two levels for binaryen |
| Stages.AppConfiguresOnce | build.py:326-336 | `app` configures iff its build directory is missing, and always compiles its target |
| Stages.AppDistOnce | build.py:338-339 | `app` creates `dist` iff it is missing |
| Stages.GatedNotRetried | build.py:193-194 | once a gated configure has been issued (or the block succeeded), a re-run skips it: `mkdir -p` precedes configure |
| Stages.GatedReached | build.py:193-194 | if the command after `mkdir -p` was issued, the directory exists |
| Stages.GatedFirstReached | build.py:193-204 | the same, when more commands follow the gated block |
| Stages.LlvmConfigureNotRetried | build.py:192-200 | a failed llvm configure is not issued again by the next run of `llvm` |
| Stages.NodeUnpackNotRetried | build.py:273-277 | when node's `tar` fails after unpacking its directory, the process exits there and the next `node` issues nothing: the link and the browserify install are never issued |
| Settling.CloneProvides | build.py:170-181 | after `clone`'s plan every listed repository exists |
| Settling.CloneSettled | build.py:171-173 | with every listed repository present, `clone` issues nothing |
| Settling.CmakeProvides | build.py:183-190 | `cmake` leaves its archive and its unpacked sources |
| Settling.CmakeSettled | build.py:184-185 | with those present, `cmake` issues nothing |
| Settling.LlvmProvides | build.py:192-204 | `llvm` leaves its build and install directories |
| Settling.LlvmSettled | build.py:192-204 | with those present, `llvm` issues only its compile |
| Settling.BinaryenProvides | build.py:206-216 | `binaryen` leaves its build and install directories |
| Settling.BinaryenSettled | build.py:206-216 | with those present, `binaryen` issues only its compile |
| Settling.EmscriptenProvides | build.py:218-231 | `emscripten` leaves the optimizer build directory and the configuration file |
| Settling.EmscriptenSettled | build.py:218-231 | with those present, `emscripten` issues only the optimizer compile |
| Settling.OneMarkerProvides | build.py:233-241 | a gated block followed by one command leaves its directory |
| Settling.ToolsProvides | build.py:233-241 | `tools` leaves `build/tools` |
| Settling.LlvmBrowserProvides | build.py:243-269 | `llvmBrowser` leaves its build directory |
| Settling.RtlProvides | build.py:315-324 | `rtl` leaves its build directory |
| Settling.NodeProvides | build.py:271-277 | `node` leaves its archive and its unpacked directory |
| Settling.NodeSettled | build.py:271-277 | with those present, `node` issues nothing |
| Settling.MonacoProvides | build.py:283-291 | the monaco-editor part leaves its archive and its unpacked directory |
| Settling.MonacoSettled | build.py:283-291 | with those present, it issues only its copies |
| Settling.JqueryProvides | build.py:293-294 | the jquery part leaves the cached file |
| Settling.JquerySettled | build.py:293-294 | with it present, it issues only its copy |
| Settling.GoldenLayoutProvides | build.py:296-303 | the golden-layout part leaves its archive and its unpacked directory |
| Settling.GoldenLayoutSettled | build.py:296-303 | with those present, it issues only its copies |
| Settling.PartsProvide | build.py:279-313 | what the parts of `dist` provide, the whole provides |
| Settling.DistProvides | build.py:279-313 | `dist` leaves the markers of node and of its three downloaded packages |
| Settling.MonacoCopiesRepeatable | build.py:287-291 | monaco-editor's mkdir and copies hold no one-time work |
| Settling.GoldenLayoutCopiesRepeatable | build.py:299-303 | golden-layout's mkdir and copies hold no one-time work |
| Settling.LocalCopiesRepeatable | build.py:305-313 | the local copies hold no one-time work |
| Settling.DistRepeatable | build.py:279-313 | what `dist` issues once settled (no unpack of node, monaco-editor or golden-layout) holds no one-time work |
| Settling.DistSettled | build.py:279-313 | with its markers present, `dist` issues exactly its copies |
| Settling.AppProvides | build.py:326-339 | `app` leaves its build directory and `dist` |
| Settling.AppSettled | build.py:326-339 | with those present, `app` issues its preparation and its compile only |
| Settling.AppRepeatable | build.py:326-339 | that steady plan, plus repeatable copies, holds no one-time work |
| Settling.ClangPrepRepeatable | build.py:346-350 | `appClang`'s preparation (mkdir and header copies) holds no one-time work |
| Settling.ClangCopiesRepeatable | build.py:352-357 | the re-optimisation and the copies into `dist` hold no one-time work |
| Settling.CmakeUnpackOneTime | build.py:185-190 | cmake's guarded unpack, bootstrap, make and make install are one-time work |
| Settling.EmscriptenConfigOneTime | build.py:226-231 | emscripten's guarded configuration runs are one-time work |
| Settling.NodeUnpackOneTime | build.py:273-277 | node's guarded unpack, link and `npm i -g` are one-time work |
| Settling.MonacoUnpackOneTime | build.py:284-286 | monaco-editor's guarded unpack is one-time work |
| Settling.GoldenLayoutUnpackOneTime | build.py:297-298 | golden-layout's guarded unpack is one-time work |
| Settling.GuardedBlocksOneTime | build.py:185-298 | every shell line of those five existence-guarded blocks counts as one-time work |
| Pipeline.RunStagesHalted | build.py:395-407 | once the process has exited, later stages change nothing |
| Pipeline.RunStagesAppend | build.py:395-407 | running two lists of stages in turn is running their concatenation |
| Pipeline.RunStagesSnoc | build.py:395-407 | one more stage after a list of them |
| Pipeline.StageSegment | build.py:395-407 | stage k starts from the world the first k stages left, and adds to the log a prefix of its own plan, chosen from the paths that exist at that moment |
| Pipeline.PipelineStopsAtFailure | build.py:395-407 | once a stage has failed, no later stage issues any command |
| Pipeline.RunStagesConsistent | build.py:395-407 | the exit code is 1 exactly when some command failed, across any number of stages |
| Pipeline.RunStagesGrows | build.py:395-407 | paths are only ever added |
| Pipeline.StagesProvide | build.py:183-362 | every stage's plan creates whichever of its markers are missing |
| Pipeline.StagesSteady | build.py:183-362 | a stage whose markers all exist issues exactly its steady plan |
| Pipeline.StagesRepeatable | build.py:183-362 | no stage's steady plan holds one-time work: no clone, fetch, configure or install, and none of the guarded unpack, bootstrap, link or `npm i` shell lines |
| Pipeline.PlansOfRepeatable | build.py:395-407 | steady plans concatenated over stages hold no one-time work |
| Pipeline.CloneStageProvides | build.py:170-181 | the stage's plan creates whichever of its markers are missing |
| Pipeline.CloneStageSteady | build.py:170-181 | with its markers present, the stage issues exactly its steady plan |
| Pipeline.CloneStageRepeatable | build.py:170-181 | its steady plan holds no one-time work |
| Pipeline.CmakeStageProvides | build.py:183-190 | the stage's plan creates whichever of its markers are missing |
| Pipeline.CmakeStageSteady | build.py:183-190 | with its markers present, the stage issues exactly its steady plan |
| Pipeline.CmakeStageRepeatable | build.py:183-190 | its steady plan holds no one-time work |
| Pipeline.LlvmStageProvides | build.py:192-204 | the stage's plan creates whichever of its markers are missing |
| Pipeline.LlvmStageSteady | build.py:192-204 | with its markers present, the stage issues exactly its steady plan |
| Pipeline.LlvmStageRepeatable | build.py:192-204 | its steady plan holds no one-time work |
| Pipeline.BinaryenStageProvides | build.py:206-216 | the stage's plan creates whichever of its markers are missing |
| Pipeline.BinaryenStageSteady | build.py:206-216 | with its markers present, the stage issues exactly its steady plan |
| Pipeline.BinaryenStageRepeatable | build.py:206-216 | its steady plan holds no one-time work |
| Pipeline.EmscriptenStageProvides | build.py:218-231 | the stage's plan creates whichever of its markers are missing |
| Pipeline.EmscriptenStageSteady | build.py:218-231 | with its markers present, the stage issues exactly its steady plan |
| Pipeline.EmscriptenStageRepeatable | build.py:218-231 | its steady plan holds no one-time work |
| Pipeline.ToolsStageProvides | build.py:233-241 | the stage's plan creates whichever of its markers are missing |
| Pipeline.ToolsStageSteady | build.py:233-241 | with its markers present, the stage issues exactly its steady plan |
| Pipeline.ToolsStageRepeatable | build.py:233-241 | its steady plan holds no one-time work |
| Pipeline.LlvmBrowserStageProvides | build.py:243-269 | the stage's plan creates whichever of its markers are missing |
| Pipeline.LlvmBrowserStageSteady | build.py:243-269 | with its markers present, the stage issues exactly its steady plan |
| Pipeline.LlvmBrowserStageRepeatable | build.py:243-269 | its steady plan holds no one-time work |
| Pipeline.DistStageProvides | build.py:279-313 | the stage's plan creates whichever of its markers are missing |
| Pipeline.DistStageSteady | build.py:279-313 | with its markers present, the stage issues exactly its steady plan |
| Pipeline.DistStageRepeatable | build.py:279-313 | its steady plan holds no one-time work |
| Pipeline.RtlStageProvides | build.py:315-324 | the stage's plan creates whichever of its markers are missing |
| Pipeline.RtlStageSteady | build.py:315-324 | with its markers present, the stage issues exactly its steady plan |
| Pipeline.RtlStageRepeatable | build.py:315-324 | its steady plan holds no one-time work |
| Pipeline.AppClangFormatStageProvides | build.py:341-343 | the stage's plan creates whichever of its markers are missing |
| Pipeline.AppClangFormatStageSteady | build.py:341-343 | with its markers present, the stage issues exactly its steady plan |
| Pipeline.AppClangFormatStageRepeatable | build.py:341-343 | its steady plan holds no one-time work |
| Pipeline.AppClangStageProvides | build.py:345-357 | the stage's plan creates whichever of its markers are missing |
| Pipeline.AppClangStageSteady | build.py:345-357 | with its markers present, the stage issues exactly its steady plan |
| Pipeline.AppClangStageRepeatable | build.py:345-357 | its steady plan holds no one-time work |
| Pipeline.AppRuntimeStageProvides | build.py:359-362 | the stage's plan creates whichever of its markers are missing |
| Pipeline.AppRuntimeStageSteady | build.py:359-362 | with its markers present, the stage issues exactly its steady plan |
| Pipeline.AppRuntimeStageRepeatable | build.py:359-362 | its steady plan holds no one-time work |
| Pipeline.StageSettles | build.py:395-407 | a stage that finishes without error leaves its markers |
| Pipeline.RunStagesSettles | build.py:395-407 | a run of stages without error leaves the markers of all of them |
| Pipeline.RunStagesSettled | build.py:395-407 | on a tree holding every stage's markers, the stages issue exactly their steady plans |
| Pipeline.SecondRun | build.py:395-407 | a second run on any tree containing a first error-free run's result issues only the stages' steady plans, in order, with no clone, fetch, configure, install or guarded unpack, bootstrap, link or `npm i` line |
| BuildScript.NodeCreates | build.py:271-277 | `node` creates at most the cache directory, its archive, `build`, the unpacked directory and the `build/node` link |
| BuildScript.MonacoCreates | build.py:283-291 | the monaco-editor part creates at most the cache directory, its archive, its unpacked directory and `dist/monaco-editor` |
| BuildScript.JqueryCreates | build.py:293-294 | the jquery part creates at most the cache directory and the cached file |
| BuildScript.NodeResumes | build.py:281 | `node`'s existence checks, made after the earlier commands of `dist`, decide the same as when made first |
| BuildScript.MonacoResumes | build.py:283-285 | the same for the monaco-editor part |
| BuildScript.JqueryResumes | build.py:293 | the same for the jquery part |
| BuildScript.GoldenLayoutResumes | build.py:296-297 | the same for the golden-layout part |
| BuildScript.Build.constructor | build.py:409 | the process starts with nothing issued, exit code 0 |
| BuildScript.Build.Run | build.py:131-135 | `run(c)` issues `c` unless the process has exited; a non-zero status exits with code 1 |
| BuildScript.Build.GetOutput | build.py:137-144 | the same fail-fast rule; it returns the command's output exactly when the process has not exited |
| BuildScript.Build.Issue | build.py:131-135 | one `run`, keeping count of the commands issued since a given world |
| BuildScript.Build.Download | build.py:146-151 | `download` runs its plan: `mkdir -p download` and `wget` only when `download/<name>` is missing |
| BuildScript.Build.CloneRepo | build.py:171-181 | one pass of the loop: skip an existing repository, otherwise mkdir, clone, add upstream, check out the resolved ref |
| BuildScript.Build.CloneList | build.py:170-181 | the `for` loop over any repository list issues `clone`'s plan for that list under fail-fast, each directory check made when its entry is reached |
| BuildScript.Build.Clone | build.py:170-181 | `clone` runs that loop over the script's fourteen-entry list and its release tag |
| BuildScript.Build.Cmake | build.py:183-190 | `cmake` issues, under fail-fast, its download and then, unless `build/cmake-3.11.0` exists, mkdir, unpack, bootstrap, make and make install |
| BuildScript.Build.Llvm | build.py:192-204 | `llvm` issues, under fail-fast, mkdir and configure unless its build directory exists, the compile, then install unless its install directory exists |
| BuildScript.Build.Binaryen | build.py:206-216 | `binaryen` issues the same three levels for its own build and install directories |
| BuildScript.Build.Emscripten | build.py:218-231 | `emscripten` runs its plan: gated optimizer configure, compile, one-time configuration |
| BuildScript.Build.Tools | build.py:233-241 | `tools` issues mkdir and configure unless `build/tools` exists, then compiles its three targets |
| BuildScript.Build.LlvmBrowser | build.py:243-269 | `llvmBrowser` issues mkdir and configure unless its build directory exists, then compiles the browser targets |
| BuildScript.Build.Node | build.py:271-277 | `node` issues its download and, unless the unpacked directory exists, mkdir, unpack, link and the browserify install |
| BuildScript.Build.Monaco | build.py:283-291 | the monaco-editor part issues its download, mkdir and unpack unless the unpacked directory exists, then its copies every time |
| BuildScript.Build.Jquery | build.py:293-294 | the jquery part issues its download, then its copy every time |
| BuildScript.Build.GoldenLayout | build.py:296-303 | the golden-layout part issues its download under the explicit name, the unpack unless unpacked, then its copies every time |
| BuildScript.Build.LocalFiles | build.py:305-313 | the local copies are issued in order |
| BuildScript.Build.Dist | build.py:279-313 | `dist` issues mkdir of `dist`, then node, monaco-editor, jquery, golden-layout and the local copies, each part's existence checks made when that part is reached |
| BuildScript.Build.Rtl | build.py:315-324 | `rtl` issues mkdir and configure unless `build/rtl` exists, then the compile |
| BuildScript.Build.App | build.py:326-339 | `app` runs its plan: gated configure, preparation, compile, `dist` if missing |
| BuildScript.Build.AppClangFormat | build.py:341-343 | `appClangFormat` issues `app`'s plan for clang-format, then its copy into `dist` |
| BuildScript.Build.AppClang | build.py:345-357 | `appClang` issues `app`'s plan with its preparation commands, the re-optimisation of `clang.wasm` (switched on), then its copies into `dist` |
| BuildScript.Build.AppRuntime | build.py:359-362 | `appRuntime` issues `app`'s plan with `EMCC_FORCE_STDLIBS=1`, then its two copies |
| BuildScript.Build.RunMain | build.py:395-407 | `main` leaves the world its twelve stages leave when run in order under fail-fast |

## Left out

- Real subprocess execution and the semantics of git, wget, tar, cmake, ninja, cp, ln, npm, wasm-opt and em++: a command is its exit status and the paths it declares it creates; a failed command leaves an oracle-chosen subset of those paths, never any other path.
- Paths created by `mkdir -p` as parents of its argument: `MakeDir` creates only the directory it names; the script only tests directories it names itself.
- `os.path.isdir` and `os.path.exists` are both membership in the set of paths: the model does not distinguish files from directories.
- The absolute `root + ...` paths are written relative to the root; `~/.emscripten` is one more path of the tree (`Stages.ConfigFile`).
- `urlparse`: a URL is given already split into scheme, host, directory and last segment (`Commands.Url`); `Cache.DownloadNameIsBasename` covers only URLs whose last segment has no '/'.
- The literal cmake flags, the `-j` core count read from `/proc/cpuinfo` (build.py:113-114) and the build types: a configure is its build directory and source directory; the `buildType` argument of `app` is dropped because it only enters the flags.
- The environment variables set at start-up (build.py:116-129): nothing in the pipeline reads them back.
- The append to `~/.emscripten` (build.py:228-229): file output outside the build tree, between two commands; the model keeps the `em++` that creates the file and the two commands around the write.
- `httpServer` (build.py:364-393): a network server, not called from `main`.
- Console output (`print`) and the standard output `getOutput` echoes: `Build.GetOutput` returns what an output parameter says the command prints, as text. The script decodes that output as UTF-8 before echoing it, so a command that succeeds but prints invalid UTF-8 raises there instead of returning, and the value it returns is bytes; neither is modelled. No function of `build.py` calls `getOutput`.
- The `prepBuildDir` callback of `app` is the list of commands it issues (`Stages.ClangPrep`).
- Paths.Join: a repository path with no '/' is outside the model (`Paths.Relative` requires a directory part). For such a path the script would issue `mkdir -p ` with no operand, which fails, and `cd  && git clone`, which clones in the home directory; every path in the script's list lies inside `repos/`.
- `sys.exit`: the process is not terminated; `Build` records the exit as `halted` with exit code 1, after which every `run` is a no-op, and the fail-fast lemmas show nothing more is issued.
- Pipeline.SecondRun: stated for any list of stages and any tree containing the first run's result, not only for `main`'s list on that exact tree.
