/** The repository list and release tag of build.py. */
module RepoList {
  import opened Wrappers
  import opened Paths
  import opened Commands
  import opened Executor
  import opened Provision

  /** The release tag shared by every pushable repository; None checks out branches. */
  function UseTag(): Option<string> { Some("cib-013") }

  /** Where the i-th repository is checked out, relative to the root. */
  function RepoPath(i: nat): (p: string)
    requires i < 14
    ensures |p| > 6 && p[..6] == "repos/"
  {
    match i
    case 0 => "repos/llvm"
    case 1 => "repos/llvm/tools/clang"
    case 2 => "repos/llvm/tools/lld"
    case 3 => "repos/llvm/projects/compiler-rt"
    case 4 => "repos/llvm/projects/libcxx"
    case 5 => "repos/llvm/projects/libcxxabi"
    case 6 => "repos/emscripten"
    case 7 => "repos/binaryen"
    case 8 => "repos/zip.js"
    case 9 => "repos/eos"
    case 10 => "repos/eos-musl"
    case 11 => "repos/eos-libcxx"
    case 12 => "repos/magic-get"
    case _ => "repos/eos-altjs"
  }

  /** The i-th entry of the repository list. */
  function RepoAt(i: nat): (r: RepoSpec)
    requires i < 14
    ensures r.path == RepoPath(i) && Relative(r.path)
  {
    match i
    case 0 => RepoSpec(RepoPath(i), "tbfleming/cib-llvm.git", "llvm-mirror/llvm.git", true, "master", "cib")
    case 1 => RepoSpec(RepoPath(i), "tbfleming/cib-clang.git", "llvm-mirror/clang.git", true, "master", "cib")
    case 2 => RepoSpec(RepoPath(i), "tbfleming/cib-lld.git", "llvm-mirror/lld.git", true, "master", "master")
    case 3 => RepoSpec(RepoPath(i), "tbfleming/cib-compiler-rt.git", "llvm-mirror/compiler-rt.git", true, "master", "master")
    case 4 => RepoSpec(RepoPath(i), "tbfleming/cib-libcxx.git", "llvm-mirror/libcxx.git", true, "master", "master")
    case 5 => RepoSpec(RepoPath(i), "tbfleming/cib-libcxxabi.git", "llvm-mirror/libcxxabi.git", true, "master", "master")
    case 6 => RepoSpec(RepoPath(i), "tbfleming/cib-emscripten.git", "kripken/emscripten.git", true, "incoming", "cib")
    case 7 => RepoSpec(RepoPath(i), "tbfleming/cib-binaryen.git", "WebAssembly/binaryen.git", true, "master", "cib")
    case 8 => RepoSpec(RepoPath(i), "gildas-lormeau/zip.js.git", "gildas-lormeau/zip.js.git", false, "3e7920810f63d5057ef6028833243105521da369", "3e7920810f63d5057ef6028833243105521da369")
    case 9 => RepoSpec(RepoPath(i), "tbfleming/cib-eos.git", "EOSIO/eos.git", true, "dawn-v3.0.0", "cib")
    case 10 => RepoSpec(RepoPath(i), "tbfleming/cib-eos-musl.git", "EOSIO/eos-musl.git", true, "eosio", "cib")
    case 11 => RepoSpec(RepoPath(i), "EOSIO/libcxx.git", "EOSIO/libcxx.git", false, "2880ac42909d4bb29687ed079f8bb4405c3b0869", "2880ac42909d4bb29687ed079f8bb4405c3b0869")
    case 12 => RepoSpec(RepoPath(i), "apolukhin/magic_get.git", "apolukhin/magic_get.git", false, "8b575abe4359abd72bb9556f64ee33aa2a6f3583", "8b575abe4359abd72bb9556f64ee33aa2a6f3583")
    case _ => RepoSpec(RepoPath(i), "tbfleming/eos-altjs", "tbfleming/eos-altjs", true, "master", "cib")
  }

  /** The list `clone` walks, in order. */
  function Repos(): seq<RepoSpec> {
    seq(14, i requires 0 <= i < 14 => RepoAt(i))
  }

  /** Every listed path is relative to the root. */
  lemma ReposRelative()
    ensures AllRelative(Repos())
  {
    forall i | 0 <= i < |Repos()|
      ensures Relative(Repos()[i].path)
    {
      assert Repos()[i] == RepoAt(i);
    }
  }

  /** Two entries of the same family differ in length or in their last character. */
  lemma SameFamilyDiffer(i: nat, j: nat)
    requires i < j < 14 && (j < 6 || 6 <= i)
    ensures RepoPath(i) != RepoPath(j)
  {
    var p := RepoPath(i);
    var q := RepoPath(j);
    if |p| == |q| {
      assert p[|p| - 1] != q[|q| - 1];
    }
  }

  /** No two entries share a local path. */
  lemma ReposDistinct()
    ensures DistinctPaths(Repos())
  {
    forall i, j | 0 <= i < j < |Repos()|
      ensures Repos()[i].path != Repos()[j].path
    {
      assert Repos()[i].path == RepoPath(i) && Repos()[j].path == RepoPath(j);
      if j < 6 || 6 <= i {
        SameFamilyDiffer(i, j);
      } else {
        FamilyMark(i);
        FamilyMark(j);
      }
    }
  }

  /** A path that differs from `p` at position `k` is not a directory containing `p`. */
  lemma NotInsideAt(q: string, p: string, k: nat)
    requires k < |q| && k < |p| && q[k] != p[k]
    ensures !(q + "/" <= p)
  {
  }

  /** Within the `repos/llvm` family, no entry lies inside an earlier one. */
  lemma LlvmFamilyOrdered(i: nat, j: nat)
    requires i < j < 6
    ensures !(RepoPath(j) + "/" <= RepoPath(i))
  {
    var p := RepoPath(i);
    var q := RepoPath(j);
    if |q| + 1 > |p| {
    } else if q[17] != p[17] {
      NotInsideAt(q, p, 17);
    } else {
      NotInsideAt(q, p, 20);
    }
  }

  /** Among the remaining entries, no entry lies inside an earlier one. */
  lemma OthersOrdered(i: nat, j: nat)
    requires 6 <= i < j < 14
    ensures !(RepoPath(j) + "/" <= RepoPath(i))
  {
    var p := RepoPath(i);
    var q := RepoPath(j);
    if |q| + 1 > |p| {
    } else if q[6] != p[6] {
      NotInsideAt(q, p, 6);
    } else if q[7] != p[7] {
      NotInsideAt(q, p, 7);
    } else {
      NotInsideAt(q, p, 10);
    }
  }

  /**
   * The first six entries are `repos/llvm` and the paths beneath it; the
   * others are not, and already differ from it at their seventh character.
   */
  lemma FamilyMark(i: nat)
    requires i < 14
    ensures |RepoPath(i)| > 6
    ensures RepoPath(i)[6] == 'l' <==> i < 6
    ensures "repos/llvm" <= RepoPath(i) <==> i < 6
  {
    var p := RepoPath(i);
    if i < 6 {
      assert p[..10] == "repos/llvm";
    } else {
      assert p[6] != 'l';
    }
  }

  /**
   * No repository is listed after one it lies in: `repos/llvm` comes before
   * the tools and projects checked out inside it.
   */
  lemma ReposParentsFirst()
    ensures ParentsFirst(Repos())
  {
    forall i, j | 0 <= i < j < |Repos()|
      ensures !(Repos()[j].path + "/" <= Repos()[i].path)
    {
      assert Repos()[i] == RepoAt(i) && Repos()[j] == RepoAt(j);
      if j < 6 {
        LlvmFamilyOrdered(i, j);
      } else if 6 <= i {
        OthersOrdered(i, j);
      } else {
        FamilyMark(i);
        FamilyMark(j);
        NotInsideAt(RepoPath(j), RepoPath(i), 6);
      }
    }
  }

  /**
   * `clone()` over the literal list: when it finishes without an error every
   * listed repository exists, and each that was missing was checked out at
   * the release tag or its pinned commit.
   */
  lemma CloneListProvisions(w: World, status: Oracle)
    requires !w.halted
    ensures var r := CloneFrom(w, Repos(), UseTag(), status);
            !r.halted ==>
              && r.log == w.log + ClonePlan(w.fs, Repos(), UseTag())
              && (forall i :: 0 <= i < 14 ==> RepoAt(i).path in r.fs)
              && (forall i :: 0 <= i < 14 && RepoAt(i).path !in w.fs ==>
                    Checkout(RepoAt(i).path, ResolveRef(UseTag(), RepoAt(i))) in r.log[|w.log|..])
  {
    ReposRelative();
    ReposDistinct();
    ReposParentsFirst();
    CloneProvisions(w, Repos(), UseTag(), status);
    var r := CloneFrom(w, Repos(), UseTag(), status);
    forall i | 0 <= i < 14
      ensures Repos()[i] == RepoAt(i)
    {
    }
  }
}
