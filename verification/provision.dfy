/**
 * The source provisioner (`repos` and `clone` in build.py): clone every
 * repository of a fixed list whose directory does not exist yet, add its
 * upstream remote and check out the resolved ref.
 */
module Provision {
  import opened Wrappers
  import opened Paths
  import opened Commands
  import opened Executor

  /** One entry of the repository list. */
  datatype RepoSpec = RepoSpec(
    path: Path,              // where the clone lives, relative to the root
    url: string,             // the fork that is cloned
    upstream: string,        // registered as remote `upstream`
    pushable: bool,          // whether the release tag applies to it
    upstreamBranch: string,  // upstream's branch (informational only)
    branch: string)          // the ref checked out when no tag applies

  function GitProtocol(): string { "https://github.com/" }


  /** The ref to check out: a set (non-empty) tag overrides the branch of a pushable repository. */
  function ResolveRef(tag: Option<string>, r: RepoSpec): (ref: string)
    ensures tag.Some? && tag.value != "" && r.pushable ==> ref == tag.value
    ensures tag.None? || tag.value == "" || !r.pushable ==> ref == r.branch
  {
    if tag.Some? && tag.value != "" && r.pushable then tag.value else r.branch
  }

  /** What `clone` issues for one repository whose directory is missing. */
  function RepoCommands(r: RepoSpec, tag: Option<string>): seq<Command> {
    var dir := Dirname(r.path);
    [ MakeDir(dir),
      GitClone(dir, GitProtocol() + r.url, Basename(r.path)),
      AddUpstream(r.path, GitProtocol() + r.upstream),
      Checkout(r.path, ResolveRef(tag, r)) ]
  }

  /** One iteration of the loop: skip a repository whose directory exists. */
  function CloneOne(w: World, r: RepoSpec, tag: Option<string>, status: Oracle): World {
    if r.path in w.fs then w else ExecAll(w, RepoCommands(r, tag), status)
  }

  /** The whole loop, over the list in order. */
  function CloneFrom(w: World, repos: seq<RepoSpec>, tag: Option<string>, status: Oracle): World
    decreases |repos|
  {
    if repos == [] then w else CloneFrom(CloneOne(w, repos[0], tag, status), repos[1..], tag, status)
  }

  /** One more iteration of the loop, after some. */
  lemma {:induction false} CloneFromSnoc(w: World, repos: seq<RepoSpec>, r: RepoSpec, tag: Option<string>, status: Oracle)
    ensures CloneFrom(w, repos + [r], tag, status) == CloneOne(CloneFrom(w, repos, tag, status), r, tag, status)
    decreases |repos|
  {
    if repos == [] {
      assert [r][1..] == [];
    } else {
      assert (repos + [r])[1..] == repos[1..] + [r];
      CloneFromSnoc(CloneOne(w, repos[0], tag, status), repos[1..], r, tag, status);
    }
  }

  /** What the loop issues for one repository, given the paths that exist. */
  function CloneHead(fs: set<Path>, r: RepoSpec, tag: Option<string>): seq<Command> {
    if r.path in fs then [] else RepoCommands(r, tag)
  }

  /**
   * The commands the loop issues when every one of them succeeds, from the
   * paths that exist when it starts: each repository in list order,
   * skipped when its directory exists by then.
   */
  function ClonePlan(fs: set<Path>, repos: seq<RepoSpec>, tag: Option<string>): seq<Command>
    decreases |repos|
  {
    if repos == [] then []
    else
      var head := CloneHead(fs, repos[0], tag);
      head + ClonePlan(fs + CreatedBy(head), repos[1..], tag)
  }

  /** Does a git command act on the repository at `p`? */
  predicate Touches(c: Command, p: Path) {
    || (c.GitClone? && Join(c.parent, c.name) == p)
    || (c.AddUpstream? && c.repo == p)
    || (c.Checkout? && c.repo == p)
  }

  predicate AllRelative(repos: seq<RepoSpec>) {
    forall i :: 0 <= i < |repos| ==> Relative(repos[i].path)
  }

  /** Local paths are unique across the list. */
  predicate DistinctPaths(repos: seq<RepoSpec>) {
    forall i, j :: 0 <= i < j < |repos| ==> repos[i].path != repos[j].path
  }

  /** No repository lies inside one listed after it. */
  predicate ParentsFirst(repos: seq<RepoSpec>) {
    forall i, j :: 0 <= i < j < |repos| ==> !(repos[j].path + "/" <= repos[i].path)
  }

  /** The commands for a missing repository create its parent directory and the clone itself. */
  lemma RepoCommandsCreate(r: RepoSpec, tag: Option<string>)
    requires Relative(r.path)
    ensures CreatedBy(RepoCommands(r, tag)) == {Dirname(r.path), r.path}
  {
    SplitJoin(r.path);
    var cs := RepoCommands(r, tag);
    assert CreatedBy(cs[3..]) == {};
    assert CreatedBy(cs[2..]) == {};
    assert CreatedBy(cs[1..]) == {r.path};
  }

  /** The git commands for one repository act on that repository only. */
  lemma RepoCommandsTouchOne(r: RepoSpec, tag: Option<string>, c: Command, p: Path)
    requires Relative(r.path)
    requires c in RepoCommands(r, tag) && Touches(c, p)
    ensures p == r.path
  {
    SplitJoin(r.path);
  }

  /** The loop is its plan run under the fail-fast rule. */
  lemma {:induction false} CloneFromIsPlan(w: World, repos: seq<RepoSpec>, tag: Option<string>, status: Oracle)
    ensures CloneFrom(w, repos, tag, status) == ExecAll(w, ClonePlan(w.fs, repos, tag), status)
    decreases |repos|
  {
    if repos != [] {
      var head := CloneHead(w.fs, repos[0], tag);
      var rest := ClonePlan(w.fs + CreatedBy(head), repos[1..], tag);
      var w1 := CloneOne(w, repos[0], tag, status);
      assert w1 == ExecAll(w, head, status);
      ExecAllAppend(w, head, rest, status);
      CloneFromIsPlan(w1, repos[1..], tag, status);
      if w1.halted {
        ExecAllHalted(w1, rest, status);
        ExecAllHalted(w1, ClonePlan(w1.fs, repos[1..], tag), status);
      } else if w.halted {
        ExecAllHalted(w, head, status);
      } else {
        ExecAllFailFast(w, head, status);
      }
    }
  }

  /** An existing repository is left untouched: no git command of the plan acts on a path that exists. */
  lemma {:induction false} ClonePlanSkipsExisting(fs: set<Path>, repos: seq<RepoSpec>, tag: Option<string>, p: Path)
    requires AllRelative(repos)
    requires p in fs
    ensures forall c :: c in ClonePlan(fs, repos, tag) ==> !Touches(c, p)
    decreases |repos|
  {
    if repos != [] {
      var r0 := repos[0];
      var head := CloneHead(fs, r0, tag);
      var rest := ClonePlan(fs + CreatedBy(head), repos[1..], tag);
      assert ClonePlan(fs, repos, tag) == head + rest;
      ClonePlanSkipsExisting(fs + CreatedBy(head), repos[1..], tag, p);
      forall c | c in head
        ensures !Touches(c, p)
      {
        if Touches(c, p) {
          RepoCommandsTouchOne(r0, tag, c, p);
        }
      }
    }
  }

  /** The local directories of a repository list. */
  function RepoPaths(repos: seq<RepoSpec>): set<Path> {
    set r | r in repos :: r.path
  }

  lemma RepoPathsIndexed(fs: set<Path>, repos: seq<RepoSpec>)
    ensures RepoPaths(repos) <= fs <==> forall i :: 0 <= i < |repos| ==> repos[i].path in fs
  {
    if forall i :: 0 <= i < |repos| ==> repos[i].path in fs {
      forall p | p in RepoPaths(repos)
        ensures p in fs
      {
        var r :| r in repos && r.path == p;
        var i :| 0 <= i < |repos| && repos[i] == r;
      }
    }
  }

  /** Once every listed directory exists, `clone` issues nothing. */
  lemma {:induction false} ClonePlanAllPresent(fs: set<Path>, repos: seq<RepoSpec>, tag: Option<string>)
    requires forall i :: 0 <= i < |repos| ==> repos[i].path in fs
    ensures ClonePlan(fs, repos, tag) == []
    decreases |repos|
  {
    if repos != [] {
      assert CreatedBy([]) == {} && fs + {} == fs;
      ClonePlanAllPresent(fs, repos[1..], tag);
    }
  }

  /** After the whole plan, every listed directory exists. */
  lemma {:induction false} ClonePlanProvides(fs: set<Path>, repos: seq<RepoSpec>, tag: Option<string>)
    requires AllRelative(repos)
    ensures forall i :: 0 <= i < |repos| ==> repos[i].path in fs + CreatedBy(ClonePlan(fs, repos, tag))
    decreases |repos|
  {
    if repos != [] {
      var head := CloneHead(fs, repos[0], tag);
      var rest := ClonePlan(fs + CreatedBy(head), repos[1..], tag);
      if repos[0].path !in fs {
        RepoCommandsCreate(repos[0], tag);
      }
      ClonePlanProvides(fs + CreatedBy(head), repos[1..], tag);
      CreatedByAppend(head, rest);
      forall i | 0 <= i < |repos|
        ensures repos[i].path in fs + CreatedBy(ClonePlan(fs, repos, tag))
      {
        if i > 0 {
          assert repos[i] == repos[1..][i - 1];
        }
      }
    }
  }

  /** The conditions on a list hold for its tail. */
  lemma TailWellFormed(repos: seq<RepoSpec>)
    requires repos != []
    requires AllRelative(repos) && DistinctPaths(repos) && ParentsFirst(repos)
    ensures AllRelative(repos[1..]) && DistinctPaths(repos[1..]) && ParentsFirst(repos[1..])
  {
    var tail := repos[1..];
    forall i, j | 0 <= i < j < |tail|
      ensures tail[i].path != tail[j].path && !(tail[j].path + "/" <= tail[i].path)
    {
      assert tail[i] == repos[i + 1] && tail[j] == repos[j + 1];
    }
  }

  /** A path that is not a parent of `q` is not the directory `q` sits in. */
  lemma NotParentDir(p: Path, q: Path)
    requires p != "" && !(p + "/" <= q)
    ensures p != Dirname(q)
  {
    if '/' in q {
      assert q == (Dirname(q) + "/") + Basename(q);
    }
  }

  /**
   * A repository missing at the start is checked out at its resolved ref,
   * provided paths are unique and listed parents first.
   */
  lemma {:induction false} ClonePlanChecksOutAt(fs: set<Path>, repos: seq<RepoSpec>, tag: Option<string>, i: int)
    requires AllRelative(repos) && DistinctPaths(repos) && ParentsFirst(repos)
    requires 0 <= i < |repos| && repos[i].path !in fs
    ensures Checkout(repos[i].path, ResolveRef(tag, repos[i])) in ClonePlan(fs, repos, tag)
    decreases i
  {
    var head := CloneHead(fs, repos[0], tag);
    var rest := ClonePlan(fs + CreatedBy(head), repos[1..], tag);
    assert ClonePlan(fs, repos, tag) == head + rest;
    var c := Checkout(repos[i].path, ResolveRef(tag, repos[i]));
    if i == 0 {
      assert head[3] == c;
    } else {
      LaterStillMissing(fs, repos, tag, i);
      TailWellFormed(repos);
      ClonePlanChecksOutAt(fs + CreatedBy(head), repos[1..], tag, i - 1);
      assert repos[1..][i - 1] == repos[i];
      assert c in rest;
    }
  }

  /** A missing repository listed after the first is still missing once the first has been cloned. */
  lemma LaterStillMissing(fs: set<Path>, repos: seq<RepoSpec>, tag: Option<string>, i: int)
    requires AllRelative(repos) && DistinctPaths(repos) && ParentsFirst(repos)
    requires 0 < i < |repos| && repos[i].path !in fs
    ensures repos[i].path !in fs + CreatedBy(CloneHead(fs, repos[0], tag))
  {
    var r0 := repos[0];
    if r0.path !in fs {
      RepoCommandsCreate(r0, tag);
      NotParentDir(repos[i].path, r0.path);
    }
  }

  /** Every repository missing at the start is checked out at its resolved ref. */
  lemma ClonePlanChecksOut(fs: set<Path>, repos: seq<RepoSpec>, tag: Option<string>)
    requires AllRelative(repos) && DistinctPaths(repos) && ParentsFirst(repos)
    ensures forall i :: 0 <= i < |repos| && repos[i].path !in fs ==>
              Checkout(repos[i].path, ResolveRef(tag, repos[i])) in ClonePlan(fs, repos, tag)
  {
    forall i | 0 <= i < |repos| && repos[i].path !in fs
      ensures Checkout(repos[i].path, ResolveRef(tag, repos[i])) in ClonePlan(fs, repos, tag)
    {
      ClonePlanChecksOutAt(fs, repos, tag, i);
    }
  }

  /**
   * `clone`, end to end: it issues its plan in order under fail-fast, and
   * when it finishes without an error every listed directory exists and
   * every repository that was missing has been checked out at its ref.
   */
  lemma CloneProvisions(w: World, repos: seq<RepoSpec>, tag: Option<string>, status: Oracle)
    requires !w.halted
    requires AllRelative(repos) && DistinctPaths(repos) && ParentsFirst(repos)
    ensures var r := CloneFrom(w, repos, tag, status);
            !r.halted ==>
              && r.log == w.log + ClonePlan(w.fs, repos, tag)
              && (forall i :: 0 <= i < |repos| ==> repos[i].path in r.fs)
              && (forall i :: 0 <= i < |repos| && repos[i].path !in w.fs ==>
                    Checkout(repos[i].path, ResolveRef(tag, repos[i])) in r.log[|w.log|..])
  {
    var plan := ClonePlan(w.fs, repos, tag);
    CloneFromIsPlan(w, repos, tag, status);
    ExecAllFailFast(w, plan, status);
    ClonePlanProvides(w.fs, repos, tag);
    ClonePlanChecksOut(w.fs, repos, tag);
    var r := CloneFrom(w, repos, tag, status);
    if !r.halted {
      assert r.log[|w.log|..] == plan;
    }
  }
}
