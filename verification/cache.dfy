/**
 * The artifact cache (`download` in build.py): a download is kept under
 * `download/<name>`, and the existence of that file is the only sign that it
 * has been fetched.
 */
module Cache {
  import opened Wrappers
  import opened Paths
  import opened Commands
  import opened Executor

  /**
   * The local name of a download: an explicit, non-empty `basename` wins;
   * otherwise the final segment of the URL's path.
   */
  function DownloadName(url: Url, basename: Option<string>): (name: string)
    ensures basename.Some? && basename.value != "" ==> name == basename.value
  {
    if basename.Some? && basename.value != "" then basename.value else url.file
  }

  /**
   * Without an explicit name (or with an empty one, which the script treats
   * alike), the local name is `os.path.basename` of the URL's path: the
   * text after its last '/'.
   */
  lemma DownloadNameIsBasename(url: Url)
    requires '/' !in url.file
    ensures DownloadName(url, None) == Basename(url.Path())
    ensures DownloadName(url, Some("")) == Basename(url.Path())
  {
    SplitAfterSlash(url.dir, url.file);
  }

  /** The commands `download(url, basename)` issues, as decided from the paths that exist. */
  function DownloadPlan(fs: set<Path>, url: Url, basename: Option<string>): seq<Command> {
    var name := DownloadName(url, basename);
    if CachePath(name) in fs then [] else [MakeDir(DownloadDir()), Fetch(url, name)]
  }

  /**
   * A `wget -O` that fails after creating its output file leaves a partial
   * file in the cache, and the next `download` with the same arguments
   * trusts it and issues nothing; a fetch that fails before creating the
   * file is issued again.
   */
  lemma PartialFetchTrusted(w: World, url: Url, basename: Option<string>, status: Oracle)
    requires !w.halted
    requires CachePath(DownloadName(url, basename)) !in w.fs
    requires status.exit(|w.log|, MakeDir(DownloadDir())) == 0
    requires status.exit(|w.log| + 1, Fetch(url, DownloadName(url, basename))) != 0
    ensures var name := DownloadName(url, basename);
            var r := ExecAll(w, DownloadPlan(w.fs, url, basename), status);
            && r.halted && r.exitCode == 1
            && r.log == w.log + [MakeDir(DownloadDir()), Fetch(url, name)]
            && (DownloadPlan(r.fs, url, basename) == [] <==> CachePath(name) in status.leftover(|w.log| + 1, Fetch(url, name)))
  {
    var name := DownloadName(url, basename);
    var plan := DownloadPlan(w.fs, url, basename);
    assert plan == [MakeDir(DownloadDir()), Fetch(url, name)];
    var w1 := Exec(w, MakeDir(DownloadDir()), status);
    assert |CachePath(name)| > |DownloadDir()|;
    assert w1.fs == w.fs + {DownloadDir()};
    var r := Exec(w1, Fetch(url, name), status);
    assert plan[1..] == [Fetch(url, name)] && plan[1..][1..] == [];
    assert ExecAll(w, plan, status) == ExecAll(w1, plan[1..], status) == ExecAll(r, [], status);
  }

  /** After a download plan has run, the artifact is in the cache. */
  lemma DownloadProvides(fs: set<Path>, url: Url, basename: Option<string>)
    ensures CachePath(DownloadName(url, basename)) in fs + CreatedBy(DownloadPlan(fs, url, basename))
  {
    var name := DownloadName(url, basename);
    if CachePath(name) !in fs {
      assert DownloadPlan(fs, url, basename)[1] == Fetch(url, name);
      CreatedByMember(Fetch(url, name), DownloadPlan(fs, url, basename));
    }
  }

  /** A download creates at most the cache directory and the artifact. */
  lemma DownloadCreates(fs: set<Path>, url: Url, basename: Option<string>)
    ensures CreatedBy(DownloadPlan(fs, url, basename)) <= {DownloadDir(), CachePath(DownloadName(url, basename))}
  {
    var name := DownloadName(url, basename);
    var plan := DownloadPlan(fs, url, basename);
    if CachePath(name) !in fs {
      assert plan[1..] == [Fetch(url, name)] && plan[1..][1..] == [];
      assert CreatedBy(plan[1..]) == {CachePath(name)} + CreatedBy(plan[1..][1..]);
      assert CreatedBy(plan) == {DownloadDir()} + CreatedBy(plan[1..]);
    }
  }

  /** A cached artifact is trusted as it is: nothing is issued and nothing changes. */
  lemma CachedDownloadIssuesNothing(w: World, url: Url, basename: Option<string>, status: Oracle)
    requires CachePath(DownloadName(url, basename)) in w.fs
    ensures ExecAll(w, DownloadPlan(w.fs, url, basename), status) == w
  {
  }

  /**
   * A download that does not end the process leaves the artifact in the
   * cache, so the same request later (in this run or a later one) is empty.
   */
  lemma DownloadLeavesArtifact(w: World, url: Url, basename: Option<string>, status: Oracle)
    requires !w.halted
    ensures var r := ExecAll(w, DownloadPlan(w.fs, url, basename), status);
            !r.halted ==> CachePath(DownloadName(url, basename)) in r.fs
                          && DownloadPlan(r.fs, url, basename) == []
  {
    var plan := DownloadPlan(w.fs, url, basename);
    ExecAllFailFast(w, plan, status);
    ExecAllFootprint(w, plan, status);
  }

  /**
   * At-most-once fetch: two calls with the same arguments issue, between
   * them, a prefix of `mkdir -p download` and one `wget`; the second call
   * changes nothing at all.
   */
  lemma DownloadAtMostOnce(w: World, url: Url, basename: Option<string>, status: Oracle)
    ensures var name := DownloadName(url, basename);
            var w1 := ExecAll(w, DownloadPlan(w.fs, url, basename), status);
            var w2 := ExecAll(w1, DownloadPlan(w1.fs, url, basename), status);
            && w2 == w1
            && w.log <= w2.log
            && w2.log[|w.log|..] <= [MakeDir(DownloadDir()), Fetch(url, name)]
  {
    var name := DownloadName(url, basename);
    var plan := DownloadPlan(w.fs, url, basename);
    var w1 := ExecAll(w, plan, status);
    if CachePath(name) in w.fs {
      assert plan == [] && w1 == w;
    } else if w.halted {
      ExecAllHalted(w, plan, status);
    } else {
      assert plan == [MakeDir(DownloadDir()), Fetch(url, name)];
      ExecAllFailFast(w, plan, status);
      if w1.halted {
        ExecAllHalted(w1, DownloadPlan(w1.fs, url, basename), status);
      } else {
        DownloadLeavesArtifact(w, url, basename, status);
      }
      assert w1.log[|w.log|..] == plan[..|w1.log| - |w.log|];
    }
  }
}
