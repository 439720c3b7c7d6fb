/**
 * What `codepush:release-react` does with the upload's figures and the publish
 * response: the asset counts it reports, one update group per runtime version,
 * and the hand-out of the published updates to their groups before signing.
 */
module PublishBookkeeping {
  import opened Wrappers

  /** The platforms an update is exported for. */
  datatype Platform = Android | Ios | Web

  /** The counts reported after the upload. */
  datatype AssetCounts = AssetCounts(uploadedBundleCount: int, uploadedNormalAssetCount: int, reusedNormalAssetCount: int)

  /**
   * Splits the upload's figures: bundles are assumed to be among the uploaded
   * assets, the other uploaded assets are "normal", and whatever of the unique
   * assets was not uploaded is reused.
   */
  function CountAssets(uniqueUploadedAssetCount: nat, launchAssetCount: nat, uniqueAssetCount: nat)
    : (c: AssetCounts)
    ensures c.uploadedBundleCount == launchAssetCount
    ensures 0 <= c.uploadedNormalAssetCount <= uniqueUploadedAssetCount
    ensures launchAssetCount <= uniqueUploadedAssetCount ==>
              c.uploadedBundleCount + c.uploadedNormalAssetCount == uniqueUploadedAssetCount
    ensures uniqueUploadedAssetCount < launchAssetCount ==> c.uploadedNormalAssetCount == 0
    ensures c.uploadedNormalAssetCount + c.reusedNormalAssetCount == uniqueAssetCount
    ensures c.reusedNormalAssetCount >= 0 <==> c.uploadedNormalAssetCount <= uniqueAssetCount
  {
    var uploadedNormal := if uniqueUploadedAssetCount - launchAssetCount > 0
                          then uniqueUploadedAssetCount - launchAssetCount else 0;
    AssetCounts(launchAssetCount, uploadedNormal, uniqueAssetCount - uploadedNormal)
  }

  /** The platforms that share one runtime version. */
  datatype RuntimePlatforms = RuntimePlatforms(runtimeVersion: string, platforms: seq<Platform>)

  /** The input of one update group, with the per-platform update info of type `I`. */
  datatype UpdateGroup<I> = UpdateGroup(
    branchId: string,
    updateInfoGroup: map<Platform, Option<I>>,
    runtimeVersion: string,
    message: string,
    gitCommitHash: Option<string>,
    isGitWorkingTreeDirty: bool,
    awaitingCodeSigningInfo: bool)

  /**
   * `Object.fromEntries` over the group's platforms: one key per distinct
   * platform, holding that platform's info or `undefined` when there is none.
   */
  function LocalUpdateInfoGroup<I>(platforms: seq<Platform>, unsorted: map<Platform, I>): map<Platform, Option<I>> {
    map p | p in platforms :: if p in unsorted then Some(unsorted[p]) else None
  }

  /** The update group of one runtime version and its platforms. */
  function GroupFor<I>(rp: RuntimePlatforms, unsorted: map<Platform, I>, branchId: string, message: string,
                       gitCommitHash: Option<string>, isGitWorkingTreeDirty: bool, hasCodeSigningInfo: bool)
    : UpdateGroup<I>
  {
    UpdateGroup(branchId, LocalUpdateInfoGroup(rp.platforms, unsorted), rp.runtimeVersion, message,
                gitCommitHash, isGitWorkingTreeDirty, hasCodeSigningInfo)
  }

  /**
   * One update group per runtime version, in the order of `runtimeToPlatform`:
   * every group is on the created branch, has the group's runtime version, and
   * holds one key per platform of that runtime version, with the platform's
   * update info when there is one.
   */
  function BuildUpdateGroups<I>(runtimeToPlatform: seq<RuntimePlatforms>, unsorted: map<Platform, I>,
                                branchId: string, message: string, gitCommitHash: Option<string>,
                                isGitWorkingTreeDirty: bool, hasCodeSigningInfo: bool)
    : (groups: seq<UpdateGroup<I>>)
    ensures |groups| == |runtimeToPlatform|
    ensures forall i :: 0 <= i < |groups| ==>
              groups[i].branchId == branchId
              && groups[i].runtimeVersion == runtimeToPlatform[i].runtimeVersion
              && groups[i].message == message
              && groups[i].gitCommitHash == gitCommitHash
              && groups[i].isGitWorkingTreeDirty == isGitWorkingTreeDirty
              && groups[i].awaitingCodeSigningInfo == hasCodeSigningInfo
    ensures forall i, p :: 0 <= i < |groups| ==>
              (p in groups[i].updateInfoGroup <==> p in runtimeToPlatform[i].platforms)
    ensures forall i, p :: 0 <= i < |groups| && p in groups[i].updateInfoGroup ==>
              (groups[i].updateInfoGroup[p].Some? <==> p in unsorted)
              && (p in unsorted ==> groups[i].updateInfoGroup[p] == Some(unsorted[p]))
  {
    seq(|runtimeToPlatform|, i requires 0 <= i < |runtimeToPlatform| =>
      GroupFor(runtimeToPlatform[i], unsorted, branchId, message, gitCommitHash, isGitWorkingTreeDirty, hasCodeSigningInfo))
  }

  /** The number of updates a group expects back: `Object.keys(updateInfoGroup).length`. */
  function PlatformCount<I>(group: UpdateGroup<I>): nat {
    |group.updateInfoGroup.Keys|
  }

  predicate NoDuplicates<T(==)>(s: seq<T>) {
    forall i, j :: 0 <= i < j < |s| ==> s[i] != s[j]
  }

  /** A group built from distinct platforms expects one update per platform. */
  lemma {:induction false} DistinctPlatformsCount<I>(platforms: seq<Platform>, unsorted: map<Platform, I>)
    requires NoDuplicates(platforms)
    ensures |LocalUpdateInfoGroup(platforms, unsorted).Keys| == |platforms|
  {
    var keys := LocalUpdateInfoGroup(platforms, unsorted).Keys;
    assert keys == set p | p in platforms;
    SeqToSetCard(platforms);
  }

  lemma {:induction false} SeqToSetCard<T>(s: seq<T>)
    requires NoDuplicates(s)
    ensures |set x | x in s| == |s|
  {
    if s != [] {
      var rest := s[1..];
      assert NoDuplicates(rest) by {
        forall i, j | 0 <= i < j < |rest| ensures rest[i] != rest[j] {
          assert rest[i] == s[i + 1] && rest[j] == s[j + 1];
        }
      }
      SeqToSetCard(rest);
      assert s[0] !in rest by {
        forall i | 0 <= i < |rest| ensures rest[i] != s[0] { assert rest[i] == s[i + 1]; }
      }
      assert (set x | x in s) == {s[0]} + (set x | x in rest) by {
        forall x | x in s ensures x == s[0] || x in rest {
          var i :| 0 <= i < |s| && s[i] == x;
          if i > 0 { assert rest[i - 1] == x; }
        }
      }
    }
  }

  /** The number of updates the first `i` groups take, when there are enough. */
  function PrefixSum(sizes: seq<nat>, i: nat): nat
    requires i <= |sizes|
  {
    if i == 0 then 0 else PrefixSum(sizes, i - 1) + sizes[i - 1]
  }

  lemma {:induction false} PrefixSumMonotone(sizes: seq<nat>, i: nat, j: nat)
    requires i <= j <= |sizes|
    ensures PrefixSum(sizes, i) <= PrefixSum(sizes, j)
    decreases j
  {
    if i < j {
      PrefixSumMonotone(sizes, i, j - 1);
    }
  }

  /** The update counts the groups expect, in order. */
  function GroupSizes<I>(groups: seq<UpdateGroup<I>>): (sizes: seq<nat>)
    ensures |sizes| == |groups|
    ensures forall i :: 0 <= i < |groups| ==> sizes[i] == PlatformCount(groups[i])
  {
    seq(|groups|, i requires 0 <= i < |groups| => PlatformCount(groups[i]))
  }

  function Min(a: int, b: int): int { if a <= b then a else b }

  function Flatten<U>(chunks: seq<seq<U>>): seq<U> {
    if chunks == [] then [] else chunks[0] + Flatten(chunks[1..])
  }

  lemma {:induction false} FlattenAppend<U>(chunks: seq<seq<U>>, last: seq<U>)
    ensures Flatten(chunks + [last]) == Flatten(chunks) + last
  {
    if chunks == [] {
      assert chunks + [last] == [last];
    } else {
      assert (chunks + [last])[1..] == chunks[1..] + [last];
      FlattenAppend(chunks[1..], last);
    }
  }

  /** One `splice(0, k)`: what it takes and what it leaves, in terms of offsets in the response. */
  lemma SpliceStep<U>(newUpdates: seq<U>, sizes: seq<nat>, i: nat, updatesTemp: seq<U>)
    requires i < |sizes|
    requires updatesTemp == newUpdates[Min(PrefixSum(sizes, i), |newUpdates|)..]
    ensures var from := Min(PrefixSum(sizes, i), |newUpdates|);
            var to := Min(PrefixSum(sizes, i + 1), |newUpdates|);
            var taken := Min(sizes[i], |updatesTemp|);
            from + taken == to
            && updatesTemp[..taken] == newUpdates[from..to]
            && updatesTemp[taken..] == newUpdates[to..]
            && newUpdates[..from] + updatesTemp[..taken] == newUpdates[..to]
  {
  }

  /**
   * The updates the j-th group is handed: those between the counts the groups
   * before it and up to it asked for, cut off at the end of the response.
   */
  function Window<U>(newUpdates: seq<U>, sizes: seq<nat>, j: nat): seq<U>
    requires j < |sizes|
  {
    newUpdates[Min(PrefixSum(sizes, j), |newUpdates|)..Min(PrefixSum(sizes, j + 1), |newUpdates|)]
  }

  /**
   * The consecutive `splice(0, k)` over a copy of the published updates: the
   * i-th group takes the next k updates (fewer when the copy runs out), where
   * k is its platform count. The chunks, concatenated, are the in-order prefix
   * of the published updates that the groups asked for.
   */
  method SplitAmongGroups<I, U>(updateGroups: seq<UpdateGroup<I>>, newUpdates: seq<U>)
    returns (chunks: seq<seq<U>>)
    ensures |chunks| == |updateGroups|
    ensures forall i :: 0 <= i < |chunks| ==> chunks[i] == Window(newUpdates, GroupSizes(updateGroups), i)
    ensures Flatten(chunks) == newUpdates[..Min(PrefixSum(GroupSizes(updateGroups), |updateGroups|), |newUpdates|)]
  {
    ghost var sizes := GroupSizes(updateGroups);
    var updatesTemp := newUpdates;
    chunks := [];
    var i := 0;
    while i < |updateGroups|
      invariant 0 <= i <= |updateGroups|
      invariant |chunks| == i
      invariant updatesTemp == newUpdates[Min(PrefixSum(sizes, i), |newUpdates|)..]
      invariant Flatten(chunks) == newUpdates[..Min(PrefixSum(sizes, i), |newUpdates|)]
      invariant forall j :: 0 <= j < i ==> chunks[j] == Window(newUpdates, sizes, j)
    {
      var k := PlatformCount(updateGroups[i]);
      var taken := Min(k, |updatesTemp|);
      SpliceStep(newUpdates, sizes, i, updatesTemp);
      var chunk := updatesTemp[..taken];
      assert chunk == Window(newUpdates, sizes, i);
      updatesTemp := updatesTemp[taken..];
      FlattenAppend(chunks, chunk);
      forall j | 0 <= j <= i ensures (chunks + [chunk])[j] == Window(newUpdates, sizes, j) {
        if j < i { assert (chunks + [chunk])[j] == chunks[j]; }
      }
      chunks := chunks + [chunk];
      i := i + 1;
    }
  }

  /**
   * When the publish response holds one update per expected platform, every
   * group gets exactly its platform count and nothing is left over.
   */
  lemma {:induction false} ExactResponseSplitsExactly<I, U>(updateGroups: seq<UpdateGroup<I>>, newUpdates: seq<U>, i: nat)
    requires PrefixSum(GroupSizes(updateGroups), |updateGroups|) == |newUpdates|
    requires i < |updateGroups|
    ensures Min(PrefixSum(GroupSizes(updateGroups), i + 1), |newUpdates|)
            - Min(PrefixSum(GroupSizes(updateGroups), i), |newUpdates|) == PlatformCount(updateGroups[i])
  {
    PrefixSumMonotone(GroupSizes(updateGroups), i + 1, |updateGroups|);
  }
}
