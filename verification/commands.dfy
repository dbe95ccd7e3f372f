/**
 * The shell commands the build script issues, as values, and the paths each
 * one leaves behind when it succeeds. The tools themselves (git, wget, tar,
 * cmake, ninja, cp, ...) are opaque; only their success and the paths they
 * create matter to the pipeline's decisions.
 */
module Commands {
  import opened Paths

  /**
   * A URL of the form `scheme://host<dir>/<file>`, already split into its
   * parts: the path is kept as its directory part and its final segment.
   */
  datatype Url = Url(scheme: string, host: string, dir: string, file: string) {
    /** The path part of the URL. */
    function Path(): string {
      dir + "/" + file
    }

    /** The URL as it appears on the wget command line. */
    function Text(): string {
      scheme + "://" + host + Path()
    }
  }

  datatype Command =
    | MakeDir(dir: Path)                                    // mkdir -p <dir>
    | GitClone(parent: Path, url: string, name: string)     // cd <parent> && git clone <url> <name>
    | AddUpstream(repo: Path, url: string)                  // cd <repo> && git remote add upstream <url>
    | Checkout(repo: Path, ref: string)                     // cd <repo> && git checkout <ref>
    | Fetch(from: Url, name: string)                        // cd download && wget <from> -O <name>
    | Configure(build: Path, source: Path)                  // cd <build> && cmake -G "Ninja" <flags> <source>
    | Compile(build: Path, targets: seq<string>, env: string) // cd <build> && <env> ninja <targets>
    | Install(build: Path, targets: seq<string>)            // cd <build> && ninja install ...
    | Shell(line: nat, creates: set<Path>)                  // the command line build.py issues at `line`, with what it creates

  /** The artifact cache's root directory. */
  function DownloadDir(): Path { "download" }

  /** Where a download named `name` is kept. */
  function CachePath(name: string): Path {
    DownloadDir() + "/" + name
  }

  /** The paths a command creates when it exits with status 0. */
  function Creates(c: Command): set<Path> {
    match c
    case MakeDir(d) => {d}
    case GitClone(parent, _, name) => {Join(parent, name)}
    case Fetch(_, name) => {CachePath(name)}
    case Shell(_, paths) => paths
    case _ => {}
  }

  /** The paths a run of `cs` in which every command succeeds creates. */
  function CreatedBy(cs: seq<Command>): set<Path> {
    if cs == [] then {} else Creates(cs[0]) + CreatedBy(cs[1..])
  }

  lemma {:induction false} CreatedByAppend(a: seq<Command>, b: seq<Command>)
    ensures CreatedBy(a + b) == CreatedBy(a) + CreatedBy(b)
  {
    if a != [] {
      assert (a + b)[1..] == a[1..] + b;
      CreatedByAppend(a[1..], b);
    } else {
      assert a + b == b;
    }
  }

  /** A path neither `a` nor `b` creates, `a + b` does not create. */
  lemma NotCreatedByEither(a: seq<Command>, b: seq<Command>, p: Path)
    requires p !in CreatedBy(a) && p !in CreatedBy(b)
    ensures p !in CreatedBy(a + b)
  {
    CreatedByAppend(a, b);
  }

  /** Whatever a command of `cs` creates is among what `cs` creates. */
  lemma {:induction false} CreatedByMember(c: Command, cs: seq<Command>)
    requires c in cs
    ensures Creates(c) <= CreatedBy(cs)
  {
    if cs[0] != c {
      CreatedByMember(c, cs[1..]);
    }
  }

  /** A path no command of `cs` creates is not created by `cs`. */
  lemma {:induction false} NotCreatedBy(cs: seq<Command>, p: Path)
    requires forall c :: c in cs ==> p !in Creates(c)
    ensures p !in CreatedBy(cs)
    decreases |cs|
  {
    if cs != [] {
      assert cs[0] in cs;
      NotCreatedBy(cs[1..], p);
    }
  }
}
