/**
 * `processDir` for one directory, as a function of the world: which lines it
 * collects, what it prints, whether it pulls, which accumulator lists it
 * appends to, and where it raises. The class in `Scan` performs these steps
 * one by one on its fields and is proved to agree with `Classify`.
 */
module Inspect {
  import opened Wrappers
  import opened Text
  import opened Decimal
  import opened StatusLine
  import opened GitOracle
  import opened Primary

  /** The module-level accumulator lists of the source (lines 18-26). */
  datatype Report = Report(
    allRepos: seq<Path>,
    nonGitDirectories: seq<string>,
    reposInError: seq<Path>,
    reposNotOnPrimaryBranch: seq<Path>,
    reposAhead: seq<Path>,
    reposBehind: seq<Path>,
    reposWithUncommitted: seq<Path>,
    reposPulled: seq<Path>,
    reposPrinted: seq<Path>)
  {
    /** Every list extended by the corresponding list of `more`. */
    function Append(more: Report): Report
    {
      Report(
        allRepos + more.allRepos,
        nonGitDirectories + more.nonGitDirectories,
        reposInError + more.reposInError,
        reposNotOnPrimaryBranch + more.reposNotOnPrimaryBranch,
        reposAhead + more.reposAhead,
        reposBehind + more.reposBehind,
        reposWithUncommitted + more.reposWithUncommitted,
        reposPulled + more.reposPulled,
        reposPrinted + more.reposPrinted)
    }
  }

  /** All lists empty, as at start-up. */
  const NoEntries := Report([], [], [], [], [], [], [], [], [])

  /** The exceptions that escape `processDir` and end the whole run. */
  datatype Crash =
    | NoSuchDirectory(path: Path)           // `os.chdir` in `pushd` fails
    | DetachedHead(path: Path)              // `repo.head.ref` at line 178 raises on a detached HEAD
    | AppendArity(path: Path)               // `list.append` given two arguments at line 207
    | UnboundPrimaryBranchName(path: Path)  // `primaryBranchName` read unbound at line 229 or 232
    | UnsupportedMode                       // the `tree_search` mode at line 287

  /** The outcome of the pull decision at lines 217-233. */
  datatype PullVerdict = NoPull | Pull | RemoteInaccessible

  /** What one `processDir` call does. */
  datatype DirStep = DirStep(
    added: Report,                 // appended to each accumulator list
    lines: Option<seq<string>>,    // `output_lines` at exit; None when it was never created
    shown: seq<string>,            // the lines printed at 239-243 (identifier first)
    pulled: bool,                  // `remote.pull` was called
    crash: Option<Crash>)          // the exception that escaped, if any

  /** A detail line of a repository: one level deeper than its identifier. */
  function Detail(indent: nat, text: string): string
  {
    IndentText(indent + 1, [text])
  }

  /** Lines 167-170: the identifier printed above a repository's lines. */
  function Identifier(o: Options, dir: string, index: nat, indent: nat): string
  {
    if index > 0 && o.showRepoIndex then IndentText(indent, [NatToString(index) + ": " + dir])
    else IndentText(indent, [dir])
  }

  /** Lines 213-214: one line per untracked file. */
  function UntrackedLines(indent: nat, files: seq<string>): (r: seq<string>)
    ensures |r| == |files|
  {
    seq(|files|, i requires 0 <= i < |files| => Detail(indent, "Untracked: " + files[i]))
  }

  /** Line 198: show the branch line? (primary means: one of the listed primary-branch names). */
  predicate ShowBranch(o: Options, current: string)
  {
    (o.showOnPrimary && current in DefaultMainBranches) || (o.showOnNonPrimary && current !in DefaultMainBranches)
  }

  /** The current branch is the repository's resolved primary branch. */
  predicate OnPrimary(repo: Repository, current: string)
  {
    FirstPresent(DefaultMainBranches, repo.heads) == Some(current)
  }

  /** The primary remote exists and its `exists()` probe succeeds. */
  predicate PrimaryRemoteUsable(repo: Repository)
  {
    var remote := FirstPresent(DefaultRemotes, repo.remotes);
    remote.Some? && remote.value in repo.existing
  }

  /** The eligibility rule for a pull: behind, a usable primary remote, and a pull flag matching the branch. */
  predicate Eligible(o: Options, repo: Repository, current: string, behind: nat)
  {
    && behind > 0
    && PrimaryRemoteUsable(repo)
    && ((o.pullOnPrimary && OnPrimary(repo, current)) || (o.pullOnNonPrimary && !OnPrimary(repo, current)))
  }

  /** A pull is wanted, but the primary remote is configured and its probe fails. */
  predicate RemoteProbeFails(o: Options, repo: Repository, behind: nat)
  {
    var remote := FirstPresent(DefaultRemotes, repo.remotes);
    (o.pullOnPrimary || o.pullOnNonPrimary) && behind > 0 && remote.Some? && remote.value !in repo.existing
  }

  /** Lines 219-233: pull, do not pull, or fail on the unbound `primaryBranchName`. */
  function Decide(o: Options, repo: Repository, current: string, behind: nat): (v: PullVerdict)
    ensures v == Pull <==> Eligible(o, repo, current, behind)
    ensures v == RemoteInaccessible <==> RemoteProbeFails(o, repo, behind)
  {
    if (o.pullOnPrimary || o.pullOnNonPrimary) && behind > 0 then
      match FirstPresent(DefaultRemotes, repo.remotes)
      case None => NoPull
      case Some(remote) =>
        if !IsGitRemoteValid(repo, remote) then RemoteInaccessible
        else
          var primaryBranchName := FirstPresent(DefaultMainBranches, repo.heads);
          if (o.pullOnPrimary && primaryBranchName == Some(current))
             || (o.pullOnNonPrimary && primaryBranchName != Some(current))
          then Pull
          else NoPull
    else NoPull
  }

  /** The directory opens as a repository whose HEAD is on a branch. */
  predicate Attached(w: World, path: Path)
  {
    path in w.dirs && path in w.repos && w.repos[path].head.Some?
  }

  /** Lines 192-195: the entries added to `ReposAhead`, one for ahead and one for behind. */
  function AheadEntries(path: Path, counts: AheadBehind): seq<Path>
  {
    (if counts.ahead > 0 then [path] else []) + (if counts.behind > 0 then [path] else [])
  }

  /** Lines 198-200: the branch line, when shown. */
  function BranchLines(o: Options, current: string, indent: nat): seq<string>
  {
    if ShowBranch(o, current) then [Detail(indent, "Branch: " + current)] else []
  }

  /** Lines 203-205: the ahead line, when out-of-date lines are on. */
  function AheadLines(o: Options, counts: AheadBehind, indent: nat): seq<string>
  {
    if o.showOutOfDate && counts.ahead > 0 then [Detail(indent, "Ahead by " + NatToString(counts.ahead) + " commits")]
    else []
  }

  /**
   * Lines 235-251 once the lines before the pull are known: the pulling line,
   * the printing (identifier first), then the pull, whose error line is
   * appended after the printing.
   */
  function Conclude(path: Path, identifier: string, added: Report, lines: seq<string>, pulling: bool,
                    pull: PullResult, indent: nat): (s: DirStep)
    ensures s.crash.None? && s.pulled == pulling && s.lines.Some?
    ensures s.added.reposPrinted == (if |s.shown| > 0 then [path] else added.reposPrinted)
  {
    var before := lines + (if pulling then [Detail(indent, "Pulling...")] else []);
    var printed := if |before| > 0 then added.(reposPrinted := [path]) else added;
    var shown := if |before| > 0 then [identifier] + before else [];
    if pulling && pull.PullRaises? then
      DirStep(printed.(reposInError := [path]), Some(before + [Detail(indent, "ERROR: " + pull.message)]), shown, true, None)
    else DirStep(printed, Some(before), shown, pulling, None)
  }

  /** Lines 192-251 for the repository at `path`, on branch `current`, with the counts read from its status. */
  function InspectRepo(o: Options, path: Path, identifier: string, repo: Repository, current: string,
                       counts: AheadBehind, indent: nat): (s: DirStep)
    // recorded once, under its path; three lists are never written
    ensures s.added.allRepos == [path] && s.added.nonGitDirectories == [] && s.lines.Some?
    ensures s.added.reposBehind == [] && s.added.reposNotOnPrimaryBranch == [] && s.added.reposPulled == []
    // printed exactly when something was shown, never before a crash, and a crash never follows a pull
    ensures s.added.reposPrinted == if |s.shown| > 0 then [path] else []
    ensures s.crash.Some? ==> s.shown == [] && !s.pulled
  {
    var aheadEntries := AheadEntries(path, counts);
    var branchLines := BranchLines(o, current, indent);
    var aheadLines := AheadLines(o, counts, indent);
    if o.showOutOfDate && counts.behind > 0 then
      DirStep(NoEntries.(allRepos := [path], reposAhead := aheadEntries), Some(branchLines + aheadLines), [], false,
              Some(AppendArity(path)))
    else Proceed(o, path, identifier, repo, current, indent, counts, branchLines + aheadLines)
  }

  /**
   * Lines 210-251, once the counts are read and the branch and ahead lines
   * `collected`: the untracked lines, the pull decision and what follows it.
   */
  function Proceed(o: Options, path: Path, identifier: string, repo: Repository, current: string, indent: nat,
                   counts: AheadBehind, collected: seq<string>): DirStep
  {
    var uncommitted := o.showUncommittedFiles && |repo.untracked| > 0;
    var lines := collected + (if uncommitted then UntrackedLines(indent, repo.untracked) else []);
    var added := NoEntries.(allRepos := [path], reposAhead := AheadEntries(path, counts),
                            reposWithUncommitted := if uncommitted then [path] else []);
    match Decide(o, repo, current, counts.behind)
    case RemoteInaccessible =>
      DirStep(added, Some(lines + [Detail(indent, "ERROR: Remote not accessible")]), [], false,
              Some(UnboundPrimaryBranchName(path)))
    case NoPull => Conclude(path, identifier, added, lines, false, repo.pull, indent)
    case Pull => Conclude(path, identifier, added, lines, true, repo.pull, indent)
  }

  /**
   * Which lists a repository lands in: `ReposAhead` once for ahead and once
   * more for behind, `ReposWithUncommitted` when untracked files are listed,
   * `ReposInError` exactly when the pull raised.
   */
  lemma InspectRepoBuckets(o: Options, path: Path, identifier: string, repo: Repository, current: string,
                   counts: AheadBehind, indent: nat)
    ensures var s := InspectRepo(o, path, identifier, repo, current, counts, indent);
      && s.added.reposAhead == (if counts.ahead > 0 then [path] else []) + (if counts.behind > 0 then [path] else [])
      && s.added.reposWithUncommitted ==
           (if !(o.showOutOfDate && counts.behind > 0) && o.showUncommittedFiles && |repo.untracked| > 0 then [path] else [])
      && s.added.reposInError == (if s.pulled && repo.pull.PullRaises? then [path] else [])
  {
  }

  /**
   * Where `processDir` raises on a repository: at line 207 exactly when
   * behind with out-of-date lines on, else at line 229 or 232 exactly when a
   * pull is wanted and the primary remote's probe fails.
   */
  lemma InspectRepoCrashes(o: Options, path: Path, identifier: string, repo: Repository, current: string,
                   counts: AheadBehind, indent: nat)
    ensures var s := InspectRepo(o, path, identifier, repo, current, counts, indent);
      var behind := counts.behind;
      && (s.crash.None? || s.crash == Some(AppendArity(path)) || s.crash == Some(UnboundPrimaryBranchName(path)))
      && (s.crash == Some(AppendArity(path)) <==> o.showOutOfDate && behind > 0)
      && (s.crash == Some(UnboundPrimaryBranchName(path)) <==> !(o.showOutOfDate && behind > 0) && RemoteProbeFails(o, repo, behind))
  {
  }

  /**
   * A repository is pulled exactly when it gets past line 207 and is
   * eligible; its lines are printed exactly when a branch, ahead, untracked
   * or pulling line was collected.
   */
  lemma InspectRepoPulls(o: Options, path: Path, identifier: string, repo: Repository, current: string,
                   counts: AheadBehind, indent: nat)
    ensures var s := InspectRepo(o, path, identifier, repo, current, counts, indent);
      && (s.pulled <==> !(o.showOutOfDate && counts.behind > 0) && Eligible(o, repo, current, counts.behind))
      && (s.crash.None? ==>
           (|s.shown| > 0 <==>
             || ShowBranch(o, current)
             || (o.showOutOfDate && counts.ahead > 0)
             || (o.showUncommittedFiles && |repo.untracked| > 0)
             || s.pulled))
  {
  }

  /** Lines 172-251: the repository is recorded, then raises at line 178 when HEAD is detached. */
  function InspectOpened(o: Options, path: Path, identifier: string, repo: Repository, indent: nat): DirStep
  {
    match repo.head
    case None => DirStep(NoEntries.(allRepos := [path]), Some([]), [], false, Some(DetachedHead(path)))
    case Some(current) => InspectRepo(o, path, identifier, repo, current, ParseAheadBehind(repo.status), indent)
  }

  /** `processDir(dir, args, index, indent)` with the current directory `cwd`. */
  function Classify(w: World, o: Options, cwd: Path, dir: string, index: nat, indent: nat): (s: DirStep)
    // pushd fails: nothing changes
    ensures var path := Resolve(cwd, dir);
      path !in w.dirs ==> s == DirStep(NoEntries, None, [], false, Some(NoSuchDirectory(path)))
    // a directory that is no repository is only recorded as such
    ensures var path := Resolve(cwd, dir);
      path in w.dirs && path !in w.repos ==> s == DirStep(NoEntries.(nonGitDirectories := [dir]), None, [], false, None)
    // a repository is recorded once, under its path; it raises at once when HEAD is detached
    ensures var path := Resolve(cwd, dir);
      path in w.dirs && path in w.repos ==> s.added.allRepos == [path] && s.added.nonGitDirectories == [] && s.lines.Some?
    ensures var path := Resolve(cwd, dir);
      path in w.dirs && path in w.repos && w.repos[path].head.None? ==>
        s == DirStep(NoEntries.(allRepos := [path]), Some([]), [], false, Some(DetachedHead(path)))
    // three lists are never written
    ensures s.added.reposBehind == [] && s.added.reposNotOnPrimaryBranch == [] && s.added.reposPulled == []
    // nothing is printed before a crash, and a crash never follows a pull
    ensures s.crash.Some? ==> s.shown == [] && !s.pulled
  {
    var path := Resolve(cwd, dir);
    if path !in w.dirs then DirStep(NoEntries, None, [], false, Some(NoSuchDirectory(path)))
    else if path !in w.repos then DirStep(NoEntries.(nonGitDirectories := [dir]), None, [], false, None)
    else
      InspectOpened(o, path, Identifier(o, dir, index, indent), w.repos[path], indent)
  }

  /** A repository that is not behind is never pulled (line 219 needs `behind`). */
  lemma NotBehindNeverPulls(o: Options, path: Path, identifier: string, repo: Repository, current: string,
                            counts: AheadBehind, indent: nat)
    requires counts.behind == 0
    ensures !InspectRepo(o, path, identifier, repo, current, counts, indent).pulled
  {
  }

  /** Without a pull flag nothing is pulled and line 229/232 is never reached. */
  lemma NoPullFlagNeverPulls(o: Options, path: Path, identifier: string, repo: Repository, current: string,
                             counts: AheadBehind, indent: nat)
    requires !o.pullOnPrimary && !o.pullOnNonPrimary
    ensures var s := InspectRepo(o, path, identifier, repo, current, counts, indent);
      !s.pulled && s.crash != Some(UnboundPrimaryBranchName(path))
  {
  }

  /**
   * A behind repository whose primary remote is configured but unreachable:
   * the error line is collected, then the unbound `primaryBranchName` raises;
   * nothing is pulled or printed.
   */
  lemma UnreachableRemoteRaises(o: Options, path: Path, identifier: string, repo: Repository, current: string,
                                counts: AheadBehind, indent: nat)
    requires o.pullOnPrimary || o.pullOnNonPrimary
    requires counts.behind > 0 && !o.showOutOfDate
    requires FirstPresent(DefaultRemotes, repo.remotes).Some?
    requires FirstPresent(DefaultRemotes, repo.remotes).value !in repo.existing
    ensures var s := InspectRepo(o, path, identifier, repo, current, counts, indent);
      && s.crash == Some(UnboundPrimaryBranchName(path)) && !s.pulled && s.shown == []
      && s.lines.value[|s.lines.value| - 1] == Detail(indent, "ERROR: Remote not accessible")
  {
  }

  /**
   * With none of the primary-branch names present, `primaryBranchName` is
   * None: `--pull-on-primary-branch` alone never pulls, and
   * `--pull-on-non-primary-branch` pulls every behind repository with a
   * usable remote that gets past line 207.
   */
  lemma NoPrimaryBranchPullsOnlyAsNonPrimary(o: Options, path: Path, identifier: string, repo: Repository,
                                             current: string, counts: AheadBehind, indent: nat)
    requires FirstPresent(DefaultMainBranches, repo.heads).None?
    ensures var s := InspectRepo(o, path, identifier, repo, current, counts, indent);
      && (s.pulled ==> o.pullOnNonPrimary)
      && (s.pulled <==>
            o.pullOnNonPrimary && counts.behind > 0 && PrimaryRemoteUsable(repo) && !o.showOutOfDate)
  {
    InspectRepoPulls(o, path, identifier, repo, current, counts, indent);
  }

  /**
   * The error line of a failed pull is collected after the printing: the
   * lines end with it, and what was printed is the identifier followed by
   * every line but that one.
   */
  lemma PullErrorNeverShown(o: Options, path: Path, identifier: string, repo: Repository, current: string,
                            counts: AheadBehind, indent: nat)
    requires repo.pull.PullRaises?
    requires InspectRepo(o, path, identifier, repo, current, counts, indent).pulled
    ensures var s := InspectRepo(o, path, identifier, repo, current, counts, indent);
      && |s.shown| > 0 && s.shown[0] == identifier
      && s.lines.value == s.shown[1..] + [Detail(indent, "ERROR: " + repo.pull.message)]
      && s.added.reposInError == [path]
  {
    var s := InspectRepo(o, path, identifier, repo, current, counts, indent);
    assert ([identifier] + s.lines.value[..|s.lines.value| - 1])[1..] == s.lines.value[..|s.lines.value| - 1];
  }

  /**
   * The two notions of "primary" disagree: on `master` in a repository that
   * also has `main`, the branch line treats the branch as primary (line 181)
   * while the pull rule does not (line 226 resolves the primary branch to
   * `main`), so `--pull-on-primary-branch` does not pull it.
   */
  lemma PrimaryNotionsDiffer()
    ensures var repo := Repository({"main", "master"}, Some("master"), {"origin"}, {"origin"}, "", [], PullSucceeds);
      var o := Options(false, true, false, false, true, false, false);
      var s := InspectRepo(o, "/r", "r", repo, "master", AheadBehind(0, 1), 0);
      && ShowBranch(o, "master") && !OnPrimary(repo, "master")
      && !s.pulled && s.crash.None? && |s.shown| == 2
  {
    var heads: set<string> := {"main", "master"};
    assert DefaultMainBranches[0] in heads;
    FirstPresentAt(DefaultMainBranches, heads, 0);
    var remotes: set<string> := {"origin"};
    assert DefaultRemotes[0] in remotes;
    FirstPresentAt(DefaultRemotes, remotes, 0);
  }

  /**
   * Lines 167-170: past the indentation, the identifier is `<index>: <dir>`
   * when the index is positive and `--show-repo-index` is on, and the bare
   * directory otherwise; the index prefix reads back as the index. The
   * `repo` mode passes index 0, so it never shows one.
   */
  lemma IdentifierPrefix(o: Options, dir: string, index: nat, indent: nat)
    ensures var id := Identifier(o, dir, index, indent);
      && |id| >= 2 * indent && forall i :: 0 <= i < 2 * indent ==> id[i] == ' '
    ensures var rest := Identifier(o, dir, index, indent)[2 * indent..];
      index > 0 && o.showRepoIndex ==>
        var n := LeadingDigits(rest);
        && 0 < n && rest[..n] == NatToString(index) && DigitsValue(rest[..n]) == index
        && rest[n..] == ": " + dir
    ensures index == 0 || !o.showRepoIndex ==> Identifier(o, dir, index, indent)[2 * indent..] == dir
  {
    if index > 0 && o.showRepoIndex {
      var rest := Identifier(o, dir, index, indent)[2 * indent..];
      var numeral := NatToString(index);
      assert rest == numeral + (": " + dir);
      LeadingDigitsExact(numeral, ": " + dir);
      assert rest[..|numeral|] == numeral && rest[|numeral|..] == ": " + dir;
      DigitsValueOfNatToString(index);
    }
  }

  /** The first character of a detail line's text sits right after its indentation. */
  lemma DetailStart(indent: nat, text: string)
    requires |text| > 0
    ensures |Detail(indent, text)| > 2 * (indent + 1) && Detail(indent, text)[2 * (indent + 1)] == text[0]
  {
    assert Detail(indent, text)[2 * (indent + 1)..] == text;
  }

  /**
   * Lines 198-200: the repository's lines open with its branch line exactly
   * when `showBranch` holds, that is on a listed primary branch with
   * `--show-on-primary-branch` or on any other branch with
   * `--show-on-non-primary-branch`. Every other line it can collect first
   * (ahead, untracked, error, pulling) starts with another letter.
   */
  lemma BranchLineIffShowBranch(o: Options, path: Path, identifier: string, repo: Repository, current: string,
                                counts: AheadBehind, indent: nat)
    ensures var lines := InspectRepo(o, path, identifier, repo, current, counts, indent).lines.value;
      ShowBranch(o, current) <==> |lines| > 0 && lines[0] == Detail(indent, "Branch: " + current)
  {
    var lines := InspectRepo(o, path, identifier, repo, current, counts, indent).lines.value;
    if !ShowBranch(o, current) && |lines| > 0 {
      var k := 2 * (indent + 1);
      DetailStart(indent, "Branch: " + current);
      var text: string;
      if o.showOutOfDate && counts.ahead > 0 {
        text := "Ahead by " + NatToString(counts.ahead) + " commits";
      } else if !(o.showOutOfDate && counts.behind > 0) && o.showUncommittedFiles && |repo.untracked| > 0 {
        text := "Untracked: " + repo.untracked[0];
      } else if Decide(o, repo, current, counts.behind) == RemoteInaccessible {
        text := "ERROR: Remote not accessible";
      } else {
        text := "Pulling...";
      }
      assert lines[0] == Detail(indent, text);
      DetailStart(indent, text);
      assert lines[0][k] != 'B';
    }
  }

  /**
   * Lines 100-106 as the pull rule uses them: the primary remote passes
   * `isGitRemoteValid` exactly when it is usable, and fails it exactly when
   * it is configured but its probe fails.
   */
  lemma PrimaryRemoteValidity(repo: Repository)
    ensures var remote := FirstPresent(DefaultRemotes, repo.remotes);
      && (PrimaryRemoteUsable(repo) <==> remote.Some? && IsGitRemoteValid(repo, remote.value))
      && (remote.Some? && !IsGitRemoteValid(repo, remote.value) <==> remote.Some? && remote.value !in repo.existing)
    ensures forall name :: name !in repo.remotes ==> !IsGitRemoteValid(repo, name)
  {
  }
}
