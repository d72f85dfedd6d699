/**
 * What the scan asks of the filesystem and of git, as plain values. Every
 * GitPython query and every `glob`/`os.path.isdir` call of the source is a
 * lookup in a `World`; nothing here runs git.
 */
module GitOracle {
  import opened Wrappers

  /** An absolute directory path. */
  type Path = string

  /** What `remote.pull(...)` does: return, or raise an exception with a message. */
  datatype PullResult = PullSucceeds | PullRaises(message: string)

  /** What git reports about one working copy. */
  datatype Repository = Repository(
    heads: set<string>,        // names of the local branches (`repo.heads`)
    head: Option<string>,      // `repo.head.ref.name`; None when HEAD is detached
    remotes: set<string>,      // names of the configured remotes (`repo.remotes`)
    existing: set<string>,     // remotes whose `remote.exists()` probe answers True
    status: string,            // `git status --porcelain=v2 --branch`
    untracked: seq<string>,    // `repo.untracked_files`
    pull: PullResult)          // the outcome of pulling from the primary remote

  /** The filesystem as the scan sees it. */
  datatype World = World(
    dirs: set<Path>,                   // the existing directories
    repos: map<Path, Repository>,      // the directories `git.Repo(".")` opens
    matches: map<Path, seq<string>>)   // `glob.glob(wildcard)` run in each directory, in its order
  {
    /** The glob matches in directory `p`; none in a directory the map does not list. */
    function Glob(p: Path): seq<string>
    {
      if p in matches then matches[p] else []
    }

    /** `os.path.isdir(name)` with the current directory `cwd`. */
    predicate IsDir(cwd: Path, name: string)
    {
      Resolve(cwd, name) in dirs
    }
  }

  /** The directory `os.chdir(d)` enters from `cwd`: `d` itself when absolute, else below `cwd`. */
  function Resolve(cwd: Path, d: string): Path
  {
    if |d| > 0 && d[0] == '/' then d else cwd + "/" + d
  }

  /** The processing flags of the command line that the core reads. */
  datatype Options = Options(
    showRepoIndex: bool,         // --show-repo-index
    showOnPrimary: bool,         // --show-on-primary-branch
    showOnNonPrimary: bool,      // --show-on-non-primary-branch
    showOutOfDate: bool,         // --show-out-of-date
    pullOnPrimary: bool,         // --pull-on-primary-branch
    pullOnNonPrimary: bool,      // --pull-on-non-primary-branch
    showUncommittedFiles: bool)  // --show-uncommitted-files

  /** The `--mode` choices. */
  datatype Mode = Repo | DirOfRepos | DirOfDirOfRepos | TreeSearch
}
