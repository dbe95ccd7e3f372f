/**
 * The command executor (`run` in build.py) as a state transformer over a
 * symbolic world, and the fail-fast rule it imposes on any sequence of
 * commands.
 */
module Executor {
  import opened Paths
  import opened Commands

  /**
   * What the outside world decides about the command issued at a given
   * position of the log: its exit status, and, when it fails, which of the
   * paths it would create it has left behind anyway (a partly written
   * `wget -O` file, a partly unpacked `tar` directory, a `mkdir -p` that
   * succeeded inside a failing command line).
   */
  datatype Oracle = Oracle(exit: (nat, Command) -> int, leftover: (nat, Command) -> set<Path>)

  /**
   * What the pipeline can observe: the paths that exist, every command issued
   * so far, whether the process has exited on an error, and its exit code.
   */
  datatype World = World(fs: set<Path>, log: seq<Command>, halted: bool, exitCode: int)

  /** The exit code is 1 exactly when a command has failed, 0 otherwise. */
  predicate Consistent(w: World) {
    w.exitCode == if w.halted then 1 else 0
  }

  /**
   * `run(c)`: once the process has exited nothing more happens; otherwise `c`
   * is issued, and a non-zero status ends the process with exit code 1,
   * leaving behind whatever part of the command's paths the oracle says.
   */
  function Exec(w: World, c: Command, status: Oracle): World {
    if w.halted then w
    else if status.exit(|w.log|, c) == 0 then World(w.fs + Creates(c), w.log + [c], false, w.exitCode)
    else World(w.fs + Creates(c) * status.leftover(|w.log|, c), w.log + [c], true, 1)
  }

  /** A sequence of `run` calls, in order. */
  function ExecAll(w: World, cs: seq<Command>, status: Oracle): World
    decreases |cs|
  {
    if cs == [] then w else ExecAll(Exec(w, cs[0], status), cs[1..], status)
  }

  /** No command is issued after a failure: an exited process stays as it is. */
  lemma {:induction false} ExecAllHalted(w: World, cs: seq<Command>, status: Oracle)
    requires w.halted
    ensures ExecAll(w, cs, status) == w
    decreases |cs|
  {
    if cs != [] {
      ExecAllHalted(w, cs[1..], status);
    }
  }

  /** Running `a` and then `b` is running `a + b`. */
  lemma {:induction false} ExecAllAppend(w: World, a: seq<Command>, b: seq<Command>, status: Oracle)
    ensures ExecAll(w, a + b, status) == ExecAll(ExecAll(w, a, status), b, status)
    decreases |a|
  {
    if a == [] {
      assert a + b == b;
    } else {
      assert (a + b)[1..] == a[1..] + b;
      ExecAllAppend(Exec(w, a[0], status), a[1..], b, status);
    }
  }

  /** One more `run` after a sequence of them. */
  lemma ExecAllSnoc(w: World, cs: seq<Command>, c: Command, status: Oracle)
    ensures ExecAll(w, cs + [c], status) == Exec(ExecAll(w, cs, status), c, status)
  {
    ExecAllAppend(w, cs, [c], status);
    assert [c][1..] == [];
  }

  /**
   * Running `cs` issues a prefix of `cs`; unless it halts, the prefix is all
   * of `cs` and all it creates exists.
   */
  lemma {:induction false} ExecAllIssuesPrefix(w: World, cs: seq<Command>, status: Oracle)
    requires !w.halted
    ensures var r := ExecAll(w, cs, status);
            var k := |r.log| - |w.log|;
            && 0 <= k <= |cs|
            && r.log == w.log + cs[..k]
            && (!r.halted ==> k == |cs| && r.fs == w.fs + CreatedBy(cs) && r.exitCode == w.exitCode)
            && (r.halted ==> r.exitCode == 1)
    decreases |cs|
  {
    if cs != [] {
      var w1 := Exec(w, cs[0], status);
      if w1.halted {
        ExecAllHalted(w1, cs[1..], status);
      } else {
        ExecAllIssuesPrefix(w1, cs[1..], status);
        var k := |ExecAll(w, cs, status).log| - |w.log|;
        assert cs[..k] == [cs[0]] + cs[1..][..k - 1];
      }
    }
  }

  /**
   * Of the k commands a run issues, all but the last succeeded, and it halts
   * exactly when the last one failed.
   */
  lemma {:induction false} ExecAllStatuses(w: World, cs: seq<Command>, status: Oracle)
    requires !w.halted
    ensures var r := ExecAll(w, cs, status);
            var k := |r.log| - |w.log|;
            && 0 <= k <= |cs|
            && (forall i :: 0 <= i < k - 1 ==> status.exit(|w.log| + i, cs[i]) == 0)
            && (r.halted <==> k > 0 && status.exit(|w.log| + k - 1, cs[k - 1]) != 0)
    decreases |cs|
  {
    ExecAllIssuesPrefix(w, cs, status);
    if cs != [] {
      var w1 := Exec(w, cs[0], status);
      if w1.halted {
        ExecAllHalted(w1, cs[1..], status);
      } else {
        ExecAllIssuesPrefix(w1, cs[1..], status);
        ExecAllStatuses(w1, cs[1..], status);
        var k := |ExecAll(w, cs, status).log| - |w.log|;
        forall i | 0 <= i < k - 1
          ensures status.exit(|w.log| + i, cs[i]) == 0
        {
          if i > 0 {
            assert cs[i] == cs[1..][i - 1];
          }
        }
        if k > 1 {
          assert cs[k - 1] == cs[1..][k - 2];
        }
      }
    }
  }

  /**
   * Fail-fast, stated outright: running `cs` issues a prefix of `cs`, of
   * length k; every issued command but the last succeeded; the run halts
   * exactly when the k-th failed, and otherwise all of `cs` was issued and
   * all it creates exists.
   */
  lemma ExecAllFailFast(w: World, cs: seq<Command>, status: Oracle)
    requires !w.halted
    ensures var r := ExecAll(w, cs, status);
            var k := |r.log| - |w.log|;
            && 0 <= k <= |cs|
            && r.log == w.log + cs[..k]
            && (forall i :: 0 <= i < k - 1 ==> status.exit(|w.log| + i, cs[i]) == 0)
            && (r.halted <==> k > 0 && status.exit(|w.log| + k - 1, cs[k - 1]) != 0)
            && (!r.halted ==> k == |cs| && r.fs == w.fs + CreatedBy(cs) && r.exitCode == w.exitCode)
            && (r.halted ==> r.exitCode == 1)
  {
    ExecAllIssuesPrefix(w, cs, status);
    ExecAllStatuses(w, cs, status);
  }

  /** Commands only add paths, and only the paths they are declared to create. */
  lemma {:induction false} ExecAllFootprint(w: World, cs: seq<Command>, status: Oracle)
    ensures w.fs <= ExecAll(w, cs, status).fs <= w.fs + CreatedBy(cs)
    decreases |cs|
  {
    if cs != [] {
      ExecAllFootprint(Exec(w, cs[0], status), cs[1..], status);
    }
  }

  /** A run that does not halt leaves behind what each of its commands creates. */
  lemma ExecAllMakes(w: World, cs: seq<Command>, status: Oracle, c: Command)
    requires !w.halted && c in cs
    ensures var r := ExecAll(w, cs, status);
            !r.halted ==> Creates(c) <= r.fs
  {
    ExecAllFailFast(w, cs, status);
    CreatedByMember(c, cs);
  }

  /** A run that does not halt creates exactly what its commands declare. */
  lemma {:induction false} ExecAllCreates(w: World, cs: seq<Command>, status: Oracle)
    requires !w.halted
    ensures var r := ExecAll(w, cs, status);
            !r.halted ==> r.fs == w.fs + CreatedBy(cs)
    decreases |cs|
  {
    if cs != [] {
      var w1 := Exec(w, cs[0], status);
      if w1.halted {
        ExecAllHalted(w1, cs[1..], status);
      } else {
        ExecAllCreates(w1, cs[1..], status);
      }
    }
  }

  /**
   * An existence check on a path that no command in `cs` creates gives the
   * same answer after `cs` as before, whatever `cs` did.
   */
  lemma GuardUnaffected(w: World, cs: seq<Command>, status: Oracle, p: Path)
    requires p !in CreatedBy(cs)
    ensures (p in ExecAll(w, cs, status).fs) == (p in w.fs)
  {
    ExecAllFootprint(w, cs, status);
  }

  /** The log only grows, and what a run adds to it is a prefix of the commands it was given. */
  lemma ExecAllIssued(w: World, cs: seq<Command>, status: Oracle)
    ensures var r := ExecAll(w, cs, status);
            w.log <= r.log && r.log[|w.log|..] <= cs
  {
    if w.halted {
      ExecAllHalted(w, cs, status);
    } else {
      ExecAllFailFast(w, cs, status);
    }
  }

  /** What was added to a log between `a` and `c` is what was added up to `b`, then after it. */
  lemma LogSplit(a: seq<Command>, b: seq<Command>, c: seq<Command>)
    requires a <= b <= c
    ensures c[|a|..] == b[|a|..] + c[|b|..]
  {
    assert forall i :: 0 <= i < |c| - |a| ==> c[|a|..][i] == c[|a| + i];
  }

  /** The exit code keeps agreeing with the halted flag. */
  lemma ExecAllConsistent(w: World, cs: seq<Command>, status: Oracle)
    requires Consistent(w)
    ensures Consistent(ExecAll(w, cs, status))
  {
    if w.halted {
      ExecAllHalted(w, cs, status);
    } else {
      ExecAllFailFast(w, cs, status);
    }
  }
}
