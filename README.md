# git-wip scan engine, modelled in Dafny

`gitwip.py` walks a directory, a directory of repositories, or a directory of
directories of repositories. For every repository it finds, it reads the
current branch, resolves the primary branch and the primary remote from fixed
priority lists, and parses the ahead/behind counts out of
`git status --porcelain=v2 --branch`. It then collects detail lines (branch,
ahead, untracked files), decides whether to pull, prints, pulls, and appends
the repository to module-level accumulator lists that the summary reports at
the end.

This project models that engine as the code is written, defects included:

- `Text`: `indentText` (two spaces per level, items joined by single spaces)
  and the splitting that undoes the join.
- `Decimal`: the decimal text of a count (`int(...)` and f-string formatting).
- `StatusLine`: the regular expression `#\sbranch\.ab\s\+(\d+)\s-(\d+)` run by
  `re.search`, as a leftmost-match scan over the status text.
- `GitOracle`: everything asked of git and of the filesystem, as values. A
  `World` holds the existing directories, the repositories that open, and the
  glob matches of each directory. A `Repository` holds the branch names,
  HEAD, the configured remotes, which remotes answer `exists()`, the status
  text, the untracked files and the outcome of a pull.
- `Primary`: the priority-list searches (`getGitPrimaryBranch`,
  `getGitPrimaryRemote`, `isGitBranchPrimary`, `isGitRemoteValid`).
- `Inspect`: one `processDir` call as a function `Classify` of the world. It
  gives the entries appended to each list, the output lines, what is printed,
  whether a pull happens, and the exception that escapes, if any.
- `Traversal`: the calls the flat and nested walks make, their numbering, and
  the run of those calls up to the first exception.
- `Scan`: class `Run`. Its fields are the accumulator lists, the current
  directory and `output_lines`. Its methods perform `processDir`, the two
  walks and the mode dispatch step by step, and each is proved to agree with
  the functions above.

Every exception that escapes `processDir` ends the whole run. The model makes
each one an explicit `Crash` outcome:

- `os.chdir` fails on a missing directory (`NoSuchDirectory`).
- `repo.head.ref` is read with a detached HEAD (`DetachedHead`).
- Line 207 calls `list.append` with two arguments whenever out-of-date lines
  are on and the repository is behind (`AppendArity`).
- Lines 229 and 232 read `primaryBranchName` after line 222 took the
  "remote not accessible" branch, so it was never bound
  (`UnboundPrimaryBranchName`).
- The `tree_search` mode raises (`UnsupportedMode`).

Several other source behaviours are proved as they stand:

- A behind repository is appended to `ReposAhead` (line 195).
- The error line of a failed pull is appended after printing, so it is never
  printed (line 250).
- `ReposBehind`, `ReposNotOnPrimaryBranch` and `ReposPulled` are never
  written.
- The counts pattern is not anchored to the start of a line, and its `\s`
  takes any whitespace character, the no-break space included. A branch or
  upstream name can therefore carry a counts header of its own, and since
  the `# branch.head` and `# branch.upstream` lines come before
  `# branch.ab`, the injected counts win (`BranchNameInjectsCounts`).

## Model

| member | source | states |
|---|---|---|
| Text.IndentText | gitwip.py:33-34 | the result is exactly `2*count` spaces followed by the items joined with single spaces |
| Text.JoinSplit | gitwip.py:33-34 | joining the space-separated pieces of a text gives the text back |
| Text.SplitJoin | gitwip.py:33-34 | items without spaces, joined with single spaces, split back into exactly those items |
| Text.IndentTextItems | gitwip.py:33-34 | after the indentation, an indented line splits back into the items it was built from |
| Decimal.NatToString | gitwip.py:205 | the decimal text of a count is non-empty, all digits, and has no leading zero |
| Decimal.DigitsValueOfNatToString | gitwip.py:189-190 | reading back the decimal text of a count gives the count |
| Decimal.NatToStringOfDigitsValue | gitwip.py:189-190 | a digit string without a leading zero is the decimal text of its value |
| StatusLine.LeadingDigits | gitwip.py:186 | a greedy `\d+` takes every leading digit and stops at the first non-digit |
| StatusLine.FirstMatchFrom | gitwip.py:186 | the position found is a match and no earlier position from the start is; past the end means no match |
| StatusLine.SearchFromFirstMatch | gitwip.py:186-190 | the scan yields the counts of the leftmost match, or 0 and 0 when there is none |
| StatusLine.ParseIsLeftmostMatch | gitwip.py:182-190 | `ParseAheadBehind`'s counts come from the leftmost match at or before any match; with no match both are 0 |
| StatusLine.ParsesHeaderLine | gitwip.py:182-190 | a header line `# branch.ab +A -B` with no other counts header before it yields ahead A and behind B; a `#` in the text before it that is not followed by `branch.ab` (including one too near the header to be) does not get in the way |
| StatusLine.ParsesAfterHashInUpstream | gitwip.py:182-190 | an upstream line `# branch.upstream origin/issue#7` right before the counts header does not change the counts read |
| StatusLine.ParsesExampleHeader | gitwip.py:182-190 | `# branch.ab +3 -5` yields ahead 3 and behind 5 |
| StatusLine.NoHeaderMeansZero | gitwip.py:182-190 | status text in which no `#` is followed by `branch.ab` yields ahead 0 and behind 0 |
| StatusLine.NoUpstreamMeansZero | gitwip.py:182-190 | the `# branch.oid` and `# branch.head` lines of a branch with no upstream, whose name holds no counts header (a `#` in it, as in `issue#7`, is allowed), yield ahead 0 and behind 0 |
| StatusLine.ParsesFirstMatch | gitwip.py:182-190 | when the pattern matches at some point and the text before it holds no counts header, the counts are those of that match |
| StatusLine.BranchNameInjectsCounts | gitwip.py:182-190 | a branch named `x#` + no-break space + `branch.ab` + no-break space + `+A` + no-break space + `-B` with no upstream parses to ahead A and behind B, even with a real `# branch.ab` header after it |
| Primary.FirstPresent | gitwip.py:109-114 | the result is None exactly when no listed name is present, else the present name with no present name listed before it |
| Primary.FirstPresentAt | gitwip.py:109-114 | a present name with no present name before it in the list is the one chosen |
| Primary.GetGitPrimaryBranch | gitwip.py:109-114 | the loop returns the first of `main`, `master`, `wikiMaster`, `primary` that is a local branch, or None |
| Primary.GetGitPrimaryRemote | gitwip.py:125-130 | the loop returns the first of `origin`, `azure`, `devops` that is a configured remote, or None |
| Primary.IsGitBranchPrimary | gitwip.py:117-122 | true exactly when the name is one of the primary-branch names |
| Inspect.PrimaryRemoteValidity | gitwip.py:100-106 | a remote that is not configured is never valid; the primary remote passes the check exactly when it is configured and its probe succeeds, and fails it exactly when its probe fails |
| Inspect.IdentifierPrefix | gitwip.py:167-170 | past the indentation the identifier is `<index>: <dir>` when the index is positive and `--show-repo-index` is on, the index prefix reading back as the index; otherwise it is the bare directory, so index 0 never shows one |
| Inspect.BranchLineIffShowBranch | gitwip.py:198-200 | the repository's lines open with its `Branch:` line exactly when it is on a listed primary branch with `--show-on-primary-branch` or on another branch with `--show-on-non-primary-branch` |
| Inspect.UntrackedLines | gitwip.py:213-214 | one detail line per untracked file |
| Inspect.Decide | gitwip.py:217-233 | pull exactly when eligible (behind, a reachable primary remote, and a pull flag matching whether the branch is the resolved primary branch); fail on the unbound name exactly when a pull flag is set, the repository is behind and the primary remote's probe fails |
| Inspect.Conclude | gitwip.py:235-251 | never raises, pulls exactly when `pulling`, and records the repository as printed exactly when something is printed |
| Inspect.InspectRepo | gitwip.py:192-251 | the repository is recorded once in `AllRepos`; three lists are never written; it is recorded as printed exactly when something is printed; after a raise nothing was printed or pulled |
| Inspect.InspectRepoBuckets | gitwip.py:192-251 | `ReposAhead` gets one entry for ahead and one more for behind; `ReposWithUncommitted` gets one entry exactly when untracked files are listed; `ReposInError` gets one exactly when the pull raised |
| Inspect.InspectRepoCrashes | gitwip.py:203-233 | raises at line 207 exactly when behind with out-of-date lines on, at line 229/232 exactly when a pull is wanted and the primary remote's probe fails, and nowhere else |
| Inspect.InspectRepoPulls | gitwip.py:198-240 | pulls exactly when past line 207 and eligible; prints exactly when a branch, ahead, untracked or pulling line was collected |
| Inspect.Classify | gitwip.py:158-174 | a failed chdir changes nothing; a non-repository adds only its name to `NonGitDirectories`; a repository is added once to `AllRepos`; a detached HEAD raises right after that |
| Inspect.NotBehindNeverPulls | gitwip.py:219 | a repository that is not behind is never pulled |
| Inspect.NoPullFlagNeverPulls | gitwip.py:219 | without a pull flag nothing is pulled and the unbound name is never read |
| Inspect.UnreachableRemoteRaises | gitwip.py:221-233 | a behind repository with an unreachable primary remote gets the error line, then raises; it is not pulled and nothing is printed |
| Inspect.NoPrimaryBranchPullsOnlyAsNonPrimary | gitwip.py:225-233 | with no primary branch only the non-primary pull flag pulls, and it pulls every eligible repository |
| Inspect.PullErrorNeverShown | gitwip.py:239-251 | after a failed pull the lines end with the error line, and the printed lines are the identifier and every line but that one |
| Inspect.PrimaryNotionsDiffer | gitwip.py:181 | on `master` next to `main` the branch line treats the branch as primary while the pull rule does not |
| Traversal.RunCallsAppend | gitwip.py:151-155 | running two call sequences one after the other is running their concatenation; nothing runs after an exception |
| Traversal.FlatCallsNumbered | gitwip.py:146-155 | `processDir` is called once per directory match, in listing order, with indices 1, 2, ...; non-directories take no index |
| Traversal.NestedCallsRestart | gitwip.py:133-155 | in the nested walk every index is 1 or one more than the previous call's in the same container |
| Traversal.NestedCallsBlocks | gitwip.py:133-155 | the nested walk's calls are the flat walks of the container directories, one block per container in listing order, so each container's calls are numbered 1, 2, ... by themselves |
| Traversal.UnwrittenLists | gitwip.py:158-251 | no sequence of calls changes `ReposBehind`, `ReposNotOnPrimaryBranch` or `ReposPulled` |
| Traversal.SummaryListsStayEmpty | gitwip.py:279-287 | whatever the mode and the repositories, those three lists are empty at the end of the run |
| Traversal.PullFailuresIsolated | gitwip.py:246-251 | when no call raises, the run goes through every call and `ReposInError` grows by exactly the number of failed pulls |
| Scan.Run.constructor | gitwip.py:18-26 | every accumulator list starts empty |
| Scan.Run.Chdir | gitwip.py:58-65 | enters the directory exactly when it exists, otherwise stays |
| Scan.Run.ProcessDir | gitwip.py:158-251 | the current directory is restored on every exit; the lists, the output lines, what is printed and the exception are those `Classify` gives |
| Scan.Run.OpenRepo | gitwip.py:172-190 | the lists, the output lines, what is printed and the exception are those of the opened repository |
| Scan.Run.ProcessRepo | gitwip.py:192-251 | the lists, the output lines, what is printed and the exception are those `InspectRepo` gives |
| Scan.Run.OpenLines | gitwip.py:192-205 | appends the ahead entries and collects the branch and ahead lines |
| Scan.Run.AddUntracked | gitwip.py:213-214 | appends one detail line per untracked file, in order |
| Scan.Run.DecidePulling | gitwip.py:217-233 | sets `pulling` exactly when `Decide` says pull, reports the unbound name exactly when it says the remote is inaccessible, and then adds the error line |
| Scan.Run.ProcessRest | gitwip.py:210-251 | the lists, the output lines, what is printed and the exception are those `Proceed` gives |
| Scan.Run.FinishRepo | gitwip.py:235-251 | the pulling line, the printing and the pull with its error line and `ReposInError` entry, as `Conclude` gives them |
| Scan.Run.ProcessAllReposUnderDir | gitwip.py:146-155 | the current directory is restored; the lists and the exception are those of running the numbered calls up to the first exception |
| Scan.Run.ProcessAllReposUnderDirFromDir | gitwip.py:133-143 | the current directory is restored; the lists and the exception are those of running every container's calls up to the first exception |
| Scan.Run.RunMode | gitwip.py:279-287 | each mode runs its walk with the source's starting indices and indentation; `tree_search` raises |

## Left out

- GitPython (`git.Repo`, `repo.heads`, `repo.remotes`, `remote.exists()`, `repo.git.status`, `untracked_files`, `remote.pull`): their internals are not visible, so they are values in `Repository`.
- `glob.glob` pattern semantics and `os.path.isdir`: the matches of each directory are given in `World`. `Resolve` joins paths by plain concatenation and does not normalise `.`, `..` or repeated slashes.
- `MyProgressPrinter` and `rich.progress`: a user-interface library with floating-point progress.
- `MyParser`, the argparse definitions and `eprint`. The `--primary-branches` and `--default-origins` options are parsed but never read by the code, so the model uses the two fixed lists. The notes-file and `--show-notes` options are never read either.
- All `print` output except what `processDir` prints for a repository: the "Found N directories" and "Container:" lines and the summary block are formatting only. The summary prints `len(ReposAhead)` under the "behind" heading (line 326), but that section never prints because `ReposBehind` stays empty (`SummaryListsStayEmpty`).
- The accumulator lists hold `git.Repo` objects; the model records each repository by its absolute directory path.
- `processAllReposUnderDirFromDir` ignores its `dir` parameter and enters `args.directory`; `_main` passes the same value for both, so `ProcessAllReposUnderDirFromDir` takes one directory.
- Exceptions other than the five modelled crashes (git command failures, permissions, a repository that vanishes mid-run) are left out.
- StatusLine.LeadingDigits: counts only the ASCII digits, while Python's `\d` also matches other Unicode decimal digits; git writes ASCII counts in this header. (`\s` is modelled in full, as the characters for which `str.isspace()` holds.)
- Where the tool's intended design and its code disagree, the model follows the code: an unreachable remote raises instead of leaving the repository ineligible, behind repositories are counted under "ahead", and the "behind" and "pulled" lists are never filled.
