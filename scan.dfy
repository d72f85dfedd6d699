/**
 * The scan as the source runs it: the module-level accumulator lists and the
 * current directory are fields that `processDir` and the walks update in
 * place, step by step. Each method is proved to leave exactly the state that
 * the functions of `Inspect` and `Traversal` describe.
 */
module Scan {
  import opened Wrappers
  import opened Decimal
  import opened StatusLine
  import opened GitOracle
  import opened Primary
  import opened Inspect
  import opened Traversal

  class Run {
    const world: World
    const opts: Options
    var cwd: Path
    var allRepos: seq<Path>
    var nonGitDirectories: seq<string>
    var reposInError: seq<Path>
    var reposNotOnPrimaryBranch: seq<Path>
    var reposAhead: seq<Path>
    var reposBehind: seq<Path>
    var reposWithUncommitted: seq<Path>
    var reposPulled: seq<Path>
    var reposPrinted: seq<Path>
    /**
     * The `output_lines` local of the `processDir` call in progress, kept as a
     * field so that the steps of that call can share it. Only `ProcessDir` and
     * the steps below it state what it holds; after a walk or a mode it is
     * whatever the last repository left and carries no meaning.
     */
    var outputLines: seq<string>

    /** The accumulator lists as one value. */
    function Buckets(): Report
      reads this
    {
      Report(allRepos, nonGitDirectories, reposInError, reposNotOnPrimaryBranch, reposAhead, reposBehind,
             reposWithUncommitted, reposPulled, reposPrinted)
    }

    /** Start-up: every list empty (lines 18-26). */
    constructor (world: World, opts: Options, cwd: Path)
      ensures this.world == world && this.opts == opts && this.cwd == cwd
      ensures Buckets() == NoEntries && outputLines == []
    {
      this.world := world;
      this.opts := opts;
      this.cwd := cwd;
      allRepos, nonGitDirectories, reposInError, reposNotOnPrimaryBranch := [], [], [], [];
      reposAhead, reposBehind, reposWithUncommitted, reposPulled, reposPrinted := [], [], [], [], [];
      outputLines := [];
    }

    /** `os.chdir(d)`: enters `d` when it is an existing directory, else fails and stays. */
    method Chdir(d: string) returns (entered: bool)
      modifies this`cwd
      ensures entered <==> Resolve(old(cwd), d) in world.dirs
      ensures cwd == if entered then Resolve(old(cwd), d) else old(cwd)
    {
      var target := Resolve(cwd, d);
      entered := target in world.dirs;
      if entered {
        cwd := target;
      }
    }

    /**
     * `processDir(dir, args, index, indent)`. Every exit, normal or by an
     * exception, goes back to the directory it started in (the `finally` of
     * `pushd`).
     */
    method ProcessDir(dir: string, index: nat, indent: nat) returns (shown: seq<string>, crash: Option<Crash>)
      modifies this
      ensures cwd == old(cwd)
      ensures var s := Classify(world, opts, old(cwd), dir, index, indent);
        && Buckets() == old(Buckets()).Append(s.added)
        && outputLines == (if s.lines.Some? then s.lines.value else old(outputLines))
        && shown == s.shown && crash == s.crash
    {
      var previous := cwd;
      var entered := Chdir(dir);
      if !entered {
        return [], Some(NoSuchDirectory(Resolve(previous, dir)));
      }
      shown, crash := [], None;
      if cwd !in world.repos {
        nonGitDirectories := nonGitDirectories + [dir];
        cwd := previous;
        return;
      }
      shown, crash := OpenRepo(cwd, Identifier(opts, dir, index, indent), indent);
      cwd := previous;
    }

    /** Lines 160-251 inside the repository at `path`. */
    method OpenRepo(path: Path, identifier: string, indent: nat) returns (shown: seq<string>, crash: Option<Crash>)
      requires path in world.repos
      modifies this`allRepos, this`reposAhead, this`reposWithUncommitted, this`reposPrinted, this`reposInError,
               this`outputLines
      ensures var s := InspectOpened(opts, path, identifier, world.repos[path], indent);
        && Buckets() == old(Buckets()).Append(s.added)
        && s.lines == Some(outputLines) && shown == s.shown && crash == s.crash
    {
      outputLines := [];
      var repo := world.repos[path];
      allRepos := allRepos + [path];
      var primaryBranch := GetGitPrimaryBranch(repo);
      if repo.head.None? {
        return [], Some(DetachedHead(path));
      }
      var currentBranch := repo.head.value;
      var primaryRemote := GetGitPrimaryRemote(repo);
      var isOnPrimaryBranch := IsGitBranchPrimary(currentBranch);
      var counts := ParseAheadBehind(repo.status);
      ghost var s := InspectRepo(opts, path, identifier, repo, currentBranch, counts, indent);
      shown, crash := ProcessRepo(path, identifier, repo, currentBranch, isOnPrimaryBranch, counts, indent);
      assert s.added.allRepos == [path] && s.added.nonGitDirectories == [];
      assert s.added.reposBehind == [] && s.added.reposNotOnPrimaryBranch == [] && s.added.reposPulled == [];
    }

    /**
     * Lines 192-251: the rest of `processDir` once the repository is open, its
     * path recorded, its current branch known and its counts read.
     */
    method ProcessRepo(path: Path, identifier: string, repo: Repository, currentBranch: string,
                       isOnPrimaryBranch: bool, counts: AheadBehind, indent: nat)
      returns (shown: seq<string>, crash: Option<Crash>)
      requires outputLines == []
      requires isOnPrimaryBranch <==> currentBranch in DefaultMainBranches
      modifies this`reposAhead, this`reposWithUncommitted, this`reposPrinted, this`reposInError, this`outputLines
      ensures var s := InspectRepo(opts, path, identifier, repo, currentBranch, counts, indent);
        && reposAhead == old(reposAhead) + s.added.reposAhead
        && reposWithUncommitted == old(reposWithUncommitted) + s.added.reposWithUncommitted
        && reposPrinted == old(reposPrinted) + s.added.reposPrinted
        && reposInError == old(reposInError) + s.added.reposInError
        && s.lines == Some(outputLines) && shown == s.shown && crash == s.crash
    {
      OpenLines(path, currentBranch, isOnPrimaryBranch, counts, indent);
      if opts.showOutOfDate && counts.behind > 0 {
        return [], Some(AppendArity(path));
      }
      shown, crash := ProcessRest(path, identifier, repo, currentBranch, indent, counts);
    }

    /** Lines 210-251: `Proceed`, performed on the fields. */
    method ProcessRest(path: Path, identifier: string, repo: Repository, currentBranch: string, indent: nat,
                       counts: AheadBehind)
      returns (shown: seq<string>, crash: Option<Crash>)
      modifies this`reposWithUncommitted, this`reposPrinted, this`reposInError, this`outputLines
      ensures var s := Proceed(opts, path, identifier, repo, currentBranch, indent, counts, old(outputLines));
        && reposWithUncommitted == old(reposWithUncommitted) + s.added.reposWithUncommitted
        && reposPrinted == old(reposPrinted) + s.added.reposPrinted
        && reposInError == old(reposInError) + s.added.reposInError
        && s.lines == Some(outputLines) && shown == s.shown && crash == s.crash
    {
      ghost var s := Proceed(opts, path, identifier, repo, currentBranch, indent, counts, outputLines);
      ghost var uncommitted := opts.showUncommittedFiles && |repo.untracked| > 0;
      ghost var lines := outputLines + (if uncommitted then UntrackedLines(indent, repo.untracked) else []);
      ghost var added := NoEntries.(allRepos := [path], reposAhead := AheadEntries(path, counts),
                                    reposWithUncommitted := if uncommitted then [path] else []);
      if opts.showUncommittedFiles && |repo.untracked| > 0 {
        reposWithUncommitted := reposWithUncommitted + [path];
        AddUntracked(repo.untracked, indent);
      }
      assert outputLines == lines;

      var pulling, unbound := DecidePulling(repo, currentBranch, counts.behind, indent);
      if unbound {
        assert s.added == added;
        return [], Some(UnboundPrimaryBranchName(path));
      }
      assert outputLines == lines;
      assert s == Conclude(path, identifier, added, lines, pulling, repo.pull, indent);
      ghost var c := Conclude(path, identifier, NoEntries, lines, pulling, repo.pull, indent);
      shown := FinishRepo(path, identifier, repo.pull, pulling, indent);
      crash := None;
      assert s.lines == c.lines && s.shown == c.shown;
      assert s.added == added.(reposPrinted := c.added.reposPrinted, reposInError := c.added.reposInError);
    }

    /**
     * Lines 235-251: the pulling line, the printing of the identifier and the
     * lines, and the pull, whose error line comes after the printing.
     */
    method FinishRepo(path: Path, identifier: string, pull: PullResult, pulling: bool, indent: nat)
      returns (shown: seq<string>)
      modifies this`outputLines, this`reposPrinted, this`reposInError
      ensures var s := Conclude(path, identifier, NoEntries, old(outputLines), pulling, pull, indent);
        && reposPrinted == old(reposPrinted) + s.added.reposPrinted
        && reposInError == old(reposInError) + s.added.reposInError
        && Some(outputLines) == s.lines && shown == s.shown
    {
      shown := [];
      if pulling {
        outputLines := outputLines + [Detail(indent, "Pulling...")];
      }
      assert outputLines == old(outputLines) + (if pulling then [Detail(indent, "Pulling...")] else []);
      if |outputLines| > 0 {
        reposPrinted := reposPrinted + [path];
        shown := [identifier] + outputLines;
      }
      if pulling {
        match pull
        case PullSucceeds =>
        case PullRaises(message) =>
          outputLines := outputLines + [Detail(indent, "ERROR: " + message)];
          reposInError := reposInError + [path];
      }
    }

    /**
     * Lines 192-206: the `ReposAhead` entries, and the branch and ahead lines;
     * the behind line that raises is left to the caller.
     */
    method OpenLines(path: Path, currentBranch: string, isOnPrimaryBranch: bool, counts: AheadBehind, indent: nat)
      requires outputLines == []
      requires isOnPrimaryBranch <==> currentBranch in DefaultMainBranches
      modifies this`reposAhead, this`outputLines
      ensures reposAhead == old(reposAhead) + AheadEntries(path, counts)
      ensures outputLines == BranchLines(opts, currentBranch, indent) + AheadLines(opts, counts, indent)
    {
      if counts.ahead > 0 {
        reposAhead := reposAhead + [path];
      }
      if counts.behind > 0 {
        reposAhead := reposAhead + [path];
      }

      var showBranch := (opts.showOnPrimary && isOnPrimaryBranch) || (opts.showOnNonPrimary && !isOnPrimaryBranch);
      if showBranch {
        outputLines := outputLines + [Detail(indent, "Branch: " + currentBranch)];
      }
      assert outputLines == BranchLines(opts, currentBranch, indent);
      if opts.showOutOfDate && counts.ahead > 0 {
        outputLines := outputLines + [Detail(indent, "Ahead by " + NatToString(counts.ahead) + " commits")];
      }
    }

    /** Lines 213-214: one detail line per untracked file, in order. */
    method AddUntracked(files: seq<string>, indent: nat)
      modifies this`outputLines
      ensures outputLines == old(outputLines) + UntrackedLines(indent, files)
    {
      for k := 0 to |files|
        invariant outputLines == old(outputLines) + UntrackedLines(indent, files[..k])
      {
        assert UntrackedLines(indent, files[..k + 1])
            == UntrackedLines(indent, files[..k]) + [Detail(indent, "Untracked: " + files[k])];
        outputLines := outputLines + [Detail(indent, "Untracked: " + files[k])];
      }
      assert files[..|files|] == files;
    }

    /**
     * Lines 217-233: sets `pulling`, or reports that the unbound
     * `primaryBranchName` was read (`unbound`), after adding the error line
     * of an inaccessible remote.
     */
    method DecidePulling(repo: Repository, currentBranch: string, behind: nat, indent: nat)
      returns (pulling: bool, unbound: bool)
      modifies this`outputLines
      ensures pulling <==> Decide(opts, repo, currentBranch, behind) == Pull
      ensures unbound <==> Decide(opts, repo, currentBranch, behind) == RemoteInaccessible
      ensures outputLines == old(outputLines) + (if unbound then [Detail(indent, "ERROR: Remote not accessible")] else [])
    {
      pulling, unbound := false, false;
      if (opts.pullOnPrimary || opts.pullOnNonPrimary) && behind > 0 {
        var remote := GetGitPrimaryRemote(repo);
        if remote.Some? {
          // None while `primaryBranchName` is unbound
          var primaryBranchName: Option<Option<string>> := None;
          if !IsGitRemoteValid(repo, remote.value) {
            outputLines := outputLines + [Detail(indent, "ERROR: Remote not accessible")];
          } else {
            var branch := GetGitPrimaryBranch(repo);
            primaryBranchName := Some(branch);
          }
          if opts.pullOnPrimary {
            if primaryBranchName.None? {
              return false, true;
            }
            if primaryBranchName.value == Some(currentBranch) {
              pulling := true;
            }
          }
          if opts.pullOnNonPrimary {
            if primaryBranchName.None? {
              return false, true;
            }
            if primaryBranchName.value != Some(currentBranch) {
              pulling := true;
            }
          }
        }
      }
    }

    /**
     * `processAllReposUnderDir(dir, args, indent)` (lines 146-155). The
     * `outputLines` field is scratch space of each `processDir` call here, so
     * nothing is promised about it afterwards.
     */
    method ProcessAllReposUnderDir(dir: string, indent: nat) returns (crash: Option<Crash>)
      modifies this
      ensures cwd == old(cwd)
      ensures Outcome(Buckets(), crash) == FlatWalk(world, opts, old(Buckets()), old(cwd), dir, indent)
    {
      var previous := cwd;
      var entered := Chdir(dir);
      if !entered {
        return Some(NoSuchDirectory(Resolve(previous, dir)));
      }
      var path := cwd;
      var subDirs := world.Glob(path);
      ghost var start := Buckets();
      var index := 0;
      crash := None;
      var i := 0;
      while i < |subDirs| && crash.None?
        invariant 0 <= i <= |subDirs|
        invariant cwd == path
        invariant index == |FlatCalls(world, path, subDirs[..i], indent + 1)|
        invariant Outcome(Buckets(), crash) == RunCalls(world, opts, start, FlatCalls(world, path, subDirs[..i], indent + 1))
      {
        ghost var before := FlatCalls(world, path, subDirs[..i], indent + 1);
        assert subDirs[..i + 1][..i] == subDirs[..i];
        if world.IsDir(cwd, subDirs[i]) {
          index := index + 1;
          var call := Call(path, subDirs[i], index, indent + 1);
          assert FlatCalls(world, path, subDirs[..i + 1], indent + 1) == before + [call];
          RunCallsAppend(world, opts, start, before, [call]);
          var shown;
          shown, crash := ProcessDir(subDirs[i], index, indent + 1);
        }
        i := i + 1;
      }
      if i < |subDirs| {
        FlatCallsPrefix(world, path, subDirs, i, indent + 1);
        RunCallsStopped(world, opts, start, FlatCalls(world, path, subDirs[..i], indent + 1),
                        FlatCalls(world, path, subDirs, indent + 1));
      } else {
        assert subDirs[..i] == subDirs;
      }
      cwd := previous;
    }

    /**
     * `processAllReposUnderDirFromDir(dir, args, indent)` (lines 133-143); as
     * for the flat walk, `outputLines` is left unspecified.
     */
    method ProcessAllReposUnderDirFromDir(directory: string, indent: nat) returns (crash: Option<Crash>)
      modifies this
      ensures cwd == old(cwd)
      ensures Outcome(Buckets(), crash) == NestedWalk(world, opts, old(Buckets()), old(cwd), directory, indent)
    {
      var previous := cwd;
      var entered := Chdir(directory);
      if !entered {
        return Some(NoSuchDirectory(Resolve(previous, directory)));
      }
      var path := cwd;
      var containerDirs := world.Glob(path);
      ghost var start := Buckets();
      var index := 0;
      crash := None;
      var i := 0;
      while i < |containerDirs| && crash.None?
        invariant 0 <= i <= |containerDirs|
        invariant cwd == path
        invariant Outcome(Buckets(), crash) == RunCalls(world, opts, start, NestedCalls(world, path, containerDirs[..i], indent + 2))
      {
        ghost var before := NestedCalls(world, path, containerDirs[..i], indent + 2);
        assert containerDirs[..i + 1][..i] == containerDirs[..i];
        if world.IsDir(cwd, containerDirs[i]) {
          index := index + 1;
          var inner := Resolve(path, containerDirs[i]);
          assert NestedCalls(world, path, containerDirs[..i + 1], indent + 2)
              == before + FlatCalls(world, inner, world.Glob(inner), indent + 2);
          RunCallsAppend(world, opts, start, before, FlatCalls(world, inner, world.Glob(inner), indent + 2));
          crash := ProcessAllReposUnderDir(containerDirs[i], indent + 1);
        }
        i := i + 1;
      }
      if i < |containerDirs| {
        NestedCallsPrefix(world, path, containerDirs, i, indent + 2);
        RunCallsStopped(world, opts, start, NestedCalls(world, path, containerDirs[..i], indent + 2),
                        NestedCalls(world, path, containerDirs, indent + 2));
      } else {
        assert containerDirs[..i] == containerDirs;
      }
      cwd := previous;
    }

    /**
     * The `match args.mode` of `_main` (lines 279-287); `outputLines` is left
     * unspecified, as after the walks.
     */
    method RunMode(mode: Mode, directory: string) returns (crash: Option<Crash>)
      modifies this
      ensures cwd == old(cwd)
      ensures Outcome(Buckets(), crash) == ModeOutcome(world, opts, old(Buckets()), old(cwd), mode, directory)
    {
      match mode
      case Repo =>
        ghost var calls := [Call(cwd, directory, 0, 1)];
        ghost var s := StepOf(world, opts, calls[0]);
        var shown;
        shown, crash := ProcessDir(directory, 0, 1);
        assert calls[1..] == [];
        assert RunCalls(world, opts, old(Buckets()).Append(s.added), calls[1..]) == Outcome(Buckets(), None);
      case DirOfRepos =>
        crash := ProcessAllReposUnderDir(directory, 0);
      case DirOfDirOfRepos =>
        crash := ProcessAllReposUnderDirFromDir(directory, 0);
      case TreeSearch =>
        crash := Some(UnsupportedMode);
    }
  }
}
