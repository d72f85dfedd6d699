/**
 * The primary branch and the primary remote: the first name of a fixed
 * priority list that the repository has.
 */
module Primary {
  import opened Wrappers
  import opened GitOracle

  const DefaultMainBranches: seq<string> := ["main", "master", "wikiMaster", "primary"]
  const DefaultRemotes: seq<string> := ["origin", "azure", "devops"]

  /** The first name of `priority` that is in `present`; None when no listed name is. */
  function FirstPresent(priority: seq<string>, present: set<string>): (r: Option<string>)
    ensures r.None? <==> forall i :: 0 <= i < |priority| ==> priority[i] !in present
    ensures r.Some? ==> r.value in present
    ensures r.Some? ==>
      exists i :: 0 <= i < |priority| && priority[i] == r.value && forall j :: 0 <= j < i ==> priority[j] !in present
  {
    if |priority| == 0 then None
    else if priority[0] in present then Some(priority[0])
    else
      var r := FirstPresent(priority[1..], present);
      assert r.Some? ==>
        (exists i :: 1 <= i < |priority| && priority[i] == r.value && forall j :: 0 <= j < i ==> priority[j] !in present) by {
        if r.Some? {
          var k :| 0 <= k < |priority| - 1 && priority[1..][k] == r.value
            && forall j :: 0 <= j < k ==> priority[1..][j] !in present;
          assert priority[k + 1] == r.value;
        }
      }
      r
  }

  /** A name present at position `i` with nothing present before it is the one chosen. */
  lemma {:induction false} FirstPresentAt(priority: seq<string>, present: set<string>, i: nat)
    requires i < |priority| && priority[i] in present
    requires forall j :: 0 <= j < i ==> priority[j] !in present
    ensures FirstPresent(priority, present) == Some(priority[i])
  {
    if i > 0 {
      FirstPresentAt(priority[1..], present, i - 1);
    }
  }

  /** `doesGitBranchExist` for every listed name in turn (lines 109-114). */
  method GetGitPrimaryBranch(repo: Repository) returns (primary: Option<string>)
    ensures primary == FirstPresent(DefaultMainBranches, repo.heads)
  {
    for i := 0 to |DefaultMainBranches|
      invariant forall j :: 0 <= j < i ==> DefaultMainBranches[j] !in repo.heads
    {
      if DefaultMainBranches[i] in repo.heads {
        FirstPresentAt(DefaultMainBranches, repo.heads, i);
        return Some(DefaultMainBranches[i]);
      }
    }
    return None;
  }

  /** `doesGitRemoteExist` for every listed name in turn (lines 125-130). */
  method GetGitPrimaryRemote(repo: Repository) returns (primary: Option<string>)
    ensures primary == FirstPresent(DefaultRemotes, repo.remotes)
  {
    for i := 0 to |DefaultRemotes|
      invariant forall j :: 0 <= j < i ==> DefaultRemotes[j] !in repo.remotes
    {
      if DefaultRemotes[i] in repo.remotes {
        FirstPresentAt(DefaultRemotes, repo.remotes, i);
        return Some(DefaultRemotes[i]);
      }
    }
    return None;
  }

  /** Lines 117-122: is the name one of the listed primary-branch names? */
  method IsGitBranchPrimary(branchName: string) returns (primary: bool)
    ensures primary <==> branchName in DefaultMainBranches
  {
    for i := 0 to |DefaultMainBranches|
      invariant forall j :: 0 <= j < i ==> DefaultMainBranches[j] != branchName
    {
      if branchName == DefaultMainBranches[i] {
        return true;
      }
    }
    return false;
  }

  /** Lines 100-106: a remote is valid when it is configured and its `exists()` probe says so. */
  predicate IsGitRemoteValid(repo: Repository, remoteName: string)
  {
    remoteName in repo.remotes && remoteName in repo.existing
  }
}
