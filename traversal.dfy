/**
 * The walks over container directories (`processAllReposUnderDir`,
 * `processAllReposUnderDirFromDir`) and the mode dispatch of `_main`, as the
 * sequence of `processDir` calls they make and the accumulator lists those
 * calls leave behind. An exception out of any call ends the run.
 */
module Traversal {
  import opened Wrappers
  import opened StatusLine
  import opened GitOracle
  import opened Inspect

  /** One `processDir(dir, args, index, indent)` call made with current directory `base`. */
  datatype Call = Call(base: Path, dir: string, index: nat, indent: nat)

  /** The accumulator lists after a run, and the exception that ended it, if any. */
  datatype Outcome = Outcome(report: Report, crash: Option<Crash>)

  function StepOf(w: World, o: Options, c: Call): DirStep
  {
    Classify(w, o, c.base, c.dir, c.index, c.indent)
  }

  /** The calls in order from the lists `r`, stopping after the first one that raises. */
  function RunCalls(w: World, o: Options, r: Report, calls: seq<Call>): Outcome
    decreases |calls|
  {
    if |calls| == 0 then Outcome(r, None)
    else
      var s := StepOf(w, o, calls[0]);
      if s.crash.Some? then Outcome(r.Append(s.added), s.crash)
      else RunCalls(w, o, r.Append(s.added), calls[1..])
  }

  /** Lines 151-155: the calls the loop over the glob matches `names` makes. */
  function FlatCalls(w: World, base: Path, names: seq<string>, indent: nat): seq<Call>
    decreases |names|
  {
    if |names| == 0 then []
    else
      var earlier := FlatCalls(w, base, names[..|names| - 1], indent);
      var name := names[|names| - 1];
      if w.IsDir(base, name) then earlier + [Call(base, name, |earlier| + 1, indent)] else earlier
  }

  /** The matches that are directories, in listing order. */
  function Directories(w: World, base: Path, names: seq<string>): seq<string>
  {
    if |names| == 0 then []
    else (if w.IsDir(base, names[0]) then [names[0]] else []) + Directories(w, base, names[1..])
  }

  /** Lines 139-143: for each container directory in turn, the calls its own walk makes. */
  function NestedCalls(w: World, base: Path, containers: seq<string>, indent: nat): seq<Call>
    decreases |containers|
  {
    if |containers| == 0 then []
    else
      var earlier := NestedCalls(w, base, containers[..|containers| - 1], indent);
      var container := containers[|containers| - 1];
      if w.IsDir(base, container) then
        var path := Resolve(base, container);
        earlier + FlatCalls(w, path, w.Glob(path), indent)
      else earlier
  }

  /** `processAllReposUnderDir(dir, args, indent)` started in `cwd` with the lists `r`. */
  function FlatWalk(w: World, o: Options, r: Report, cwd: Path, dir: string, indent: nat): Outcome
  {
    var path := Resolve(cwd, dir);
    if path !in w.dirs then Outcome(r, Some(NoSuchDirectory(path)))
    else RunCalls(w, o, r, FlatCalls(w, path, w.Glob(path), indent + 1))
  }

  /** `processAllReposUnderDirFromDir(dir, args, indent)` started in `cwd` with the lists `r`. */
  function NestedWalk(w: World, o: Options, r: Report, cwd: Path, dir: string, indent: nat): Outcome
  {
    var path := Resolve(cwd, dir);
    if path !in w.dirs then Outcome(r, Some(NoSuchDirectory(path)))
    else RunCalls(w, o, r, NestedCalls(w, path, w.Glob(path), indent + 2))
  }

  /** Lines 279-287: the mode dispatch of `_main`. */
  function ModeOutcome(w: World, o: Options, r: Report, cwd: Path, mode: Mode, directory: string): Outcome
  {
    match mode
    case Repo => RunCalls(w, o, r, [Call(cwd, directory, 0, 1)])
    case DirOfRepos => FlatWalk(w, o, r, cwd, directory, 0)
    case DirOfDirOfRepos => NestedWalk(w, o, r, cwd, directory, 0)
    case TreeSearch => Outcome(r, Some(UnsupportedMode))
  }

  /** Running two call sequences one after the other; nothing runs after an exception. */
  lemma {:induction false} RunCallsAppend(w: World, o: Options, r: Report, a: seq<Call>, b: seq<Call>)
    ensures RunCalls(w, o, r, a + b) ==
      var first := RunCalls(w, o, r, a);
      if first.crash.Some? then first else RunCalls(w, o, first.report, b)
    decreases |a|
  {
    if |a| == 0 {
      assert a + b == b;
    } else {
      var s := StepOf(w, o, a[0]);
      assert (a + b)[0] == a[0];
      assert (a + b)[1..] == a[1..] + b;
      if s.crash.None? {
        RunCallsAppend(w, o, r.Append(s.added), a[1..], b);
      }
    }
  }

  /** Adding one directory to the listing adds it to the directories if it is one. */
  lemma {:induction false} DirectoriesSnoc(w: World, base: Path, names: seq<string>, name: string)
    ensures Directories(w, base, names + [name]) ==
      Directories(w, base, names) + (if w.IsDir(base, name) then [name] else [])
    decreases |names|
  {
    if |names| == 0 {
      assert names + [name] == [name];
    } else {
      assert (names + [name])[0] == names[0];
      assert (names + [name])[1..] == names[1..] + [name];
      DirectoriesSnoc(w, base, names[1..], name);
    }
  }

  /**
   * The flat walk calls `processDir` once per directory match, in listing
   * order, numbering them 1, 2, ...; non-directories take no number.
   */
  lemma {:induction false} FlatCallsNumbered(w: World, base: Path, names: seq<string>, indent: nat)
    ensures |FlatCalls(w, base, names, indent)| == |Directories(w, base, names)|
    ensures forall k :: 0 <= k < |FlatCalls(w, base, names, indent)| ==>
      FlatCalls(w, base, names, indent)[k] == Call(base, Directories(w, base, names)[k], k + 1, indent)
    decreases |names|
  {
    if |names| > 0 {
      var init := names[..|names| - 1];
      var name := names[|names| - 1];
      FlatCallsNumbered(w, base, init, indent);
      assert names == init + [name];
      DirectoriesSnoc(w, base, init, name);
    }
  }

  /** Every call is numbered 1, or follows a call with the same base numbered one less. */
  predicate Restarting(calls: seq<Call>)
  {
    forall k :: 0 <= k < |calls| ==>
      calls[k].index == 1 || (k > 0 && calls[k - 1].base == calls[k].base && calls[k].index == calls[k - 1].index + 1)
  }

  /**
   * The nested walk numbers the calls of each container from 1 again: every
   * call is numbered 1, or follows a call in the same container numbered one less.
   */
  lemma {:induction false} NestedCallsRestart(w: World, base: Path, containers: seq<string>, indent: nat)
    ensures Restarting(NestedCalls(w, base, containers, indent))
    decreases |containers|
  {
    if |containers| > 0 {
      var init := containers[..|containers| - 1];
      var container := containers[|containers| - 1];
      NestedCallsRestart(w, base, init, indent);
      if w.IsDir(base, container) {
        var path := Resolve(base, container);
        var earlier := NestedCalls(w, base, init, indent);
        var flat := FlatCalls(w, path, w.Glob(path), indent);
        FlatCallsNumbered(w, path, w.Glob(path), indent);
        var calls := earlier + flat;
        assert NestedCalls(w, base, containers, indent) == calls;
        forall k | 0 <= k < |calls|
          ensures calls[k].index == 1 || (k > 0 && calls[k - 1].base == calls[k].base && calls[k].index == calls[k - 1].index + 1)
        {
          if k > |earlier| {
            var j := k - |earlier|;
            assert calls[k] == flat[j] == Call(path, Directories(w, path, w.Glob(path))[j], j + 1, indent);
            assert calls[k - 1] == flat[j - 1] == Call(path, Directories(w, path, w.Glob(path))[j - 1], j, indent);
          } else if k == |earlier| {
            assert calls[k] == flat[0] == Call(path, Directories(w, path, w.Glob(path))[0], 1, indent);
          } else {
            assert calls[k] == earlier[k];
            assert k > 0 ==> calls[k - 1] == earlier[k - 1];
            assert earlier[k].index == 1 || (k > 0 && earlier[k - 1].base == earlier[k].base && earlier[k].index == earlier[k - 1].index + 1);
          }
        }
      } else {
        assert NestedCalls(w, base, containers, indent) == NestedCalls(w, base, init, indent);
      }
    }
  }

  /** The flat walks of the container directories `dirs`, one block after another. */
  function Blocks(w: World, base: Path, dirs: seq<string>, indent: nat): seq<Call>
    decreases |dirs|
  {
    if |dirs| == 0 then []
    else
      var path := Resolve(base, dirs[|dirs| - 1]);
      Blocks(w, base, dirs[..|dirs| - 1], indent) + FlatCalls(w, path, w.Glob(path), indent)
  }

  /**
   * The nested walk is the flat walk of each container directory in listing
   * order, so by `FlatCallsNumbered` the calls of each container are
   * numbered 1, 2, ... by themselves: a call's index is one more than the
   * number of calls before it in its container.
   */
  lemma {:induction false} NestedCallsBlocks(w: World, base: Path, containers: seq<string>, indent: nat)
    ensures NestedCalls(w, base, containers, indent) == Blocks(w, base, Directories(w, base, containers), indent)
    decreases |containers|
  {
    if |containers| > 0 {
      var init := containers[..|containers| - 1];
      var container := containers[|containers| - 1];
      NestedCallsBlocks(w, base, init, indent);
      assert containers == init + [container];
      DirectoriesSnoc(w, base, init, container);
      var dirs := Directories(w, base, init);
      if w.IsDir(base, container) {
        assert (dirs + [container])[..|dirs|] == dirs;
      } else {
        assert dirs + [] == dirs;
      }
    }
  }

  /** The calls for a prefix of the listing are a prefix of the calls for the listing. */
  lemma {:induction false} FlatCallsPrefix(w: World, base: Path, names: seq<string>, j: nat, indent: nat)
    requires j <= |names|
    ensures exists rest :: FlatCalls(w, base, names, indent) == FlatCalls(w, base, names[..j], indent) + rest
    decreases |names|
  {
    if j == |names| {
      assert names[..j] == names;
      assert FlatCalls(w, base, names, indent) == FlatCalls(w, base, names[..j], indent) + [];
    } else {
      var init := names[..|names| - 1];
      FlatCallsPrefix(w, base, init, j, indent);
      assert init[..j] == names[..j];
      var rest :| FlatCalls(w, base, init, indent) == FlatCalls(w, base, names[..j], indent) + rest;
      var last := FlatCalls(w, base, names, indent)[|FlatCalls(w, base, init, indent)|..];
      assert FlatCalls(w, base, names, indent) == FlatCalls(w, base, names[..j], indent) + (rest + last);
    }
  }

  /** The calls for a prefix of the containers are a prefix of the calls for all of them. */
  lemma {:induction false} NestedCallsPrefix(w: World, base: Path, containers: seq<string>, j: nat, indent: nat)
    requires j <= |containers|
    ensures exists rest :: NestedCalls(w, base, containers, indent) == NestedCalls(w, base, containers[..j], indent) + rest
    decreases |containers|
  {
    if j == |containers| {
      assert containers[..j] == containers;
      assert NestedCalls(w, base, containers, indent) == NestedCalls(w, base, containers[..j], indent) + [];
    } else {
      var init := containers[..|containers| - 1];
      NestedCallsPrefix(w, base, init, j, indent);
      assert init[..j] == containers[..j];
      var rest :| NestedCalls(w, base, init, indent) == NestedCalls(w, base, containers[..j], indent) + rest;
      var last := NestedCalls(w, base, containers, indent)[|NestedCalls(w, base, init, indent)|..];
      assert NestedCalls(w, base, containers, indent) == NestedCalls(w, base, containers[..j], indent) + (rest + last);
    }
  }

  /** Once a prefix of the calls has raised, the calls after it change nothing. */
  lemma RunCallsStopped(w: World, o: Options, r: Report, a: seq<Call>, all: seq<Call>)
    requires RunCalls(w, o, r, a).crash.Some?
    requires exists rest :: all == a + rest
    ensures RunCalls(w, o, r, all) == RunCalls(w, o, r, a)
  {
    var rest :| all == a + rest;
    RunCallsAppend(w, o, r, a, rest);
  }

  /** `ReposBehind`, `ReposNotOnPrimaryBranch` and `ReposPulled` are never written. */
  lemma {:induction false} UnwrittenLists(w: World, o: Options, r: Report, calls: seq<Call>)
    ensures var after := RunCalls(w, o, r, calls).report;
      after.reposBehind == r.reposBehind && after.reposNotOnPrimaryBranch == r.reposNotOnPrimaryBranch
      && after.reposPulled == r.reposPulled
    decreases |calls|
  {
    if |calls| > 0 {
      var s := StepOf(w, o, calls[0]);
      if s.crash.None? {
        UnwrittenLists(w, o, r.Append(s.added), calls[1..]);
      }
    }
  }

  /**
   * So the summary's "behind", "not on primary branch" and "pulled" sections
   * (lines 324-340) never print, whatever the mode and the repositories.
   */
  lemma SummaryListsStayEmpty(w: World, o: Options, cwd: Path, mode: Mode, directory: string)
    ensures var after := ModeOutcome(w, o, NoEntries, cwd, mode, directory).report;
      after.reposBehind == [] && after.reposNotOnPrimaryBranch == [] && after.reposPulled == []
  {
    match mode
    case Repo => UnwrittenLists(w, o, NoEntries, [Call(cwd, directory, 0, 1)]);
    case DirOfRepos =>
      var path := Resolve(cwd, directory);
      UnwrittenLists(w, o, NoEntries, FlatCalls(w, path, w.Glob(path), 1));
    case DirOfDirOfRepos =>
      var path := Resolve(cwd, directory);
      UnwrittenLists(w, o, NoEntries, NestedCalls(w, path, w.Glob(path), 2));
    case TreeSearch =>
  }

  /** The call opens a repository that is pulled (eligible, and past line 207) and whose pull raises. */
  predicate PullFails(w: World, o: Options, c: Call)
  {
    var path := Resolve(c.base, c.dir);
    && Attached(w, path)
    && var repo := w.repos[path];
       var behind := ParseAheadBehind(repo.status).behind;
       && !(o.showOutOfDate && behind > 0)
       && Eligible(o, repo, repo.head.value, behind)
       && repo.pull.PullRaises?
  }

  /** The number of calls whose pull raises. */
  function FailedPulls(w: World, o: Options, calls: seq<Call>): nat
  {
    if |calls| == 0 then 0 else (if PullFails(w, o, calls[0]) then 1 else 0) + FailedPulls(w, o, calls[1..])
  }

  /**
   * A failing pull is caught in its own repository: when no call raises, the
   * run goes through every call, and each failed pull adds exactly one entry
   * to `ReposInError`.
   */
  lemma {:induction false} PullFailuresIsolated(w: World, o: Options, r: Report, calls: seq<Call>)
    requires forall k :: 0 <= k < |calls| ==> StepOf(w, o, calls[k]).crash.None?
    ensures RunCalls(w, o, r, calls).crash.None?
    ensures |RunCalls(w, o, r, calls).report.reposInError| == |r.reposInError| + FailedPulls(w, o, calls)
    decreases |calls|
  {
    if |calls| > 0 {
      var s := StepOf(w, o, calls[0]);
      assert s.crash.None?;
      PullFailuresIsolated(w, o, r.Append(s.added), calls[1..]);
      var path := Resolve(calls[0].base, calls[0].dir);
      if Attached(w, path) {
        var repo := w.repos[path];
        var identifier := Identifier(o, calls[0].dir, calls[0].index, calls[0].indent);
        var counts := ParseAheadBehind(repo.status);
        InspectRepoBuckets(o, path, identifier, repo, repo.head.value, counts, calls[0].indent);
        InspectRepoPulls(o, path, identifier, repo, repo.head.value, counts, calls[0].indent);
      }
    }
  }
}
