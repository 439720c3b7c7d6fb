/**
 * The channel rollout planner of the `codepush:release-react` command: once the
 * new update groups are published on a freshly created branch, the command reads
 * the deployment channel's branch mapping and computes the mapping to write back.
 *
 * The mapping codec (parsing the stored JSON and building mappings) lives in
 * other files of the program and is not part of this model: a stored mapping is
 * turned into a `BranchMapping` by a parse function passed in by the caller, and
 * the classifiers `isEmptyBranchMapping`, `isAlwaysTrueBranchMapping` and
 * `isRolloutBranchMapping` are the discriminators of that datatype.
 */
module RolloutPlanner {
  import opened Wrappers

  /** A channel's traffic-routing rule, as far as the planner can tell it apart. */
  datatype BranchMapping =
    | Empty
      /** Every client is served by `branchId`. */
    | AlwaysTrue(branchId: string)
      /** `percent` of the clients are served by `rolloutBranchId`, the rest by `defaultBranchId`. */
    | Rollout(defaultBranchId: string, rolloutBranchId: string, runtimeVersion: string, percent: int)
      /** A mapping that none of the three classifiers accepts (a custom structure). */
    | Unrecognized(raw: string)

  /** The two ways the planner refuses to produce a mapping. */
  datatype PlanError = RolloutInProgress | UnrecognizedStructure

  /** The text of the error the command throws. */
  function ErrorMessage(e: PlanError): string {
    match e
    case RolloutInProgress => "Cannot start a rollout on a deployment when one is already in progress"
    case UnrecognizedStructure => "Unrecognized custom deployment structure"
  }

  /** The branch that new clients of the rollout (or all clients) are sent to. */
  function LatestBranch(m: BranchMapping): (b: Option<string>)
    ensures b.Some? <==> m.AlwaysTrue? || m.Rollout?
  {
    match m
    case AlwaysTrue(b) => Some(b)
    case Rollout(_, r, _, _) => Some(r)
    case _ => None
  }

  /**
   * The percentage the release is rolled out to: 0 when the release is
   * disabled, otherwise the `--rollout` flag, otherwise 100. The flag is an
   * unchecked integer, so the result is not confined to 0..100.
   */
  function EffectiveRolloutPercent(disabled: bool, rollout: Option<int>): (p: int)
    ensures disabled ==> p == 0
    ensures !disabled ==> p == rollout.GetOr(100)
    ensures (rollout.None? || 0 <= rollout.value <= 100) ==> 0 <= p <= 100
  {
    if disabled then 0 else rollout.GetOr(100)
  }

  /**
   * The mapping the planner starts from: none when the channel's stored mapping
   * is `null`, `undefined` or the empty string (all falsy), otherwise the parse
   * of the stored text.
   */
  function ExistingBranchMapping(stored: Option<string>, parse: string -> BranchMapping): (m: Option<BranchMapping>)
    ensures m.None? <==> stored.None? || stored.value == ""
    ensures m.Some? ==> m.value == parse(stored.value)
  {
    if stored.None? || stored.value == "" then None else Some(parse(stored.value))
  }

  /** The decision proper: the next mapping for the channel, or the error thrown. */
  function PlanBranchMapping(existing: Option<BranchMapping>, createdBranchId: string, rolloutPercent: int)
    : (r: Result<BranchMapping, PlanError>)
    // a successful plan always sends the newest clients to the branch just created ...
    ensures r.Success? ==> LatestBranch(r.value) == Some(createdBranchId)
    // ... and a rollout is only ever started from a mapping with no rollout in it
    ensures r.Success? && r.value.Rollout? ==>
              existing.Some? && existing.value.AlwaysTrue? && rolloutPercent != 100
              && r.value == Rollout(existing.value.branchId, createdBranchId, "1", rolloutPercent)
    ensures existing.Some? && existing.value.AlwaysTrue? && rolloutPercent != 100 ==>
              r == Success(Rollout(existing.value.branchId, createdBranchId, "1", rolloutPercent))
    ensures r.Failure? <==>
              existing.Some? && (existing.value.Unrecognized? || (existing.value.Rollout? && rolloutPercent != 100))
    ensures r.Failure? ==>
              r.error == if existing.value.Unrecognized? then UnrecognizedStructure else RolloutInProgress
  {
    match existing
    case None => Success(AlwaysTrue(createdBranchId))
    case Some(m) =>
      if m.Empty? then
        Success(AlwaysTrue(createdBranchId))
      else if m.AlwaysTrue? then
        if rolloutPercent == 100 then Success(AlwaysTrue(createdBranchId))
        else Success(Rollout(m.branchId, createdBranchId, "1", rolloutPercent))
      else if m.Rollout? then
        if rolloutPercent != 100 then Failure(RolloutInProgress)
        else Success(AlwaysTrue(createdBranchId))
      else
        Failure(UnrecognizedStructure)
  }

  /** Lines 475-502 of the command: effective percent, stored mapping, decision. */
  function NextBranchMapping(stored: Option<string>, parse: string -> BranchMapping,
                             createdBranchId: string, disabled: bool, rollout: Option<int>)
    : (r: Result<BranchMapping, PlanError>)
    // the first release on a channel goes to every client, `--disabled` ones included
    ensures (stored.None? || stored.value == "") ==> r == Success(AlwaysTrue(createdBranchId))
    ensures disabled && r.Success? && r.value.Rollout? ==> r.value.percent == 0
  {
    PlanBranchMapping(ExistingBranchMapping(stored, parse), createdBranchId,
                      EffectiveRolloutPercent(disabled, rollout))
  }

  /** A first release routes everything to the new branch, whatever percent was asked for. */
  lemma FirstReleaseIsAlwaysTrue(existing: Option<BranchMapping>, createdBranchId: string, percent: int)
    requires existing.None? || existing.value.Empty?
    ensures PlanBranchMapping(existing, createdBranchId, percent) == Success(AlwaysTrue(createdBranchId))
  {
  }

  /** From an always-true mapping: full replacement at 100, otherwise a rollout against the old branch. */
  lemma FromAlwaysTrue(oldBranchId: string, createdBranchId: string, percent: int)
    ensures percent == 100 ==>
              PlanBranchMapping(Some(AlwaysTrue(oldBranchId)), createdBranchId, percent)
              == Success(AlwaysTrue(createdBranchId))
    ensures percent != 100 ==>
              PlanBranchMapping(Some(AlwaysTrue(oldBranchId)), createdBranchId, percent)
              == Success(Rollout(oldBranchId, createdBranchId, "1", percent))
  {
  }

  /** From a rollout in progress: 100 collapses it, anything else is refused. */
  lemma FromRollout(current: BranchMapping, createdBranchId: string, percent: int)
    requires current.Rollout?
    ensures percent == 100 ==>
              PlanBranchMapping(Some(current), createdBranchId, percent) == Success(AlwaysTrue(createdBranchId))
    ensures percent != 100 ==>
              PlanBranchMapping(Some(current), createdBranchId, percent) == Failure(RolloutInProgress)
  {
  }

  /** A mapping none of the classifiers accepts is refused, never coerced. */
  lemma UnrecognizedIsRefused(raw: string, createdBranchId: string, percent: int)
    ensures PlanBranchMapping(Some(Unrecognized(raw)), createdBranchId, percent) == Failure(UnrecognizedStructure)
  {
  }

  /** The flags of one run of the command. */
  datatype Release = Release(createdBranchId: string, disabled: bool, rollout: Option<int>)

  /**
   * Successive releases to one channel, assuming the store hands back the
   * mapping last written; stops at the first refusal.
   */
  function Replay(current: Option<BranchMapping>, releases: seq<Release>): Result<Option<BranchMapping>, PlanError>
    decreases |releases|
  {
    if releases == [] then Success(current)
    else
      var rel := releases[0];
      match PlanBranchMapping(current, rel.createdBranchId, EffectiveRolloutPercent(rel.disabled, rel.rollout))
      case Failure(e) => Failure(e)
      case Success(m) => Replay(Some(m), releases[1..])
  }

  /** The mappings this planner itself writes. */
  predicate Recognized(m: Option<BranchMapping>) {
    m.None? || !m.value.Unrecognized?
  }

  /** The set of branches created by a run of releases. */
  function CreatedBranches(releases: seq<Release>): (ids: set<string>)
    ensures forall i :: 0 <= i < |releases| ==> releases[i].createdBranchId in ids
  {
    set i | 0 <= i < |releases| :: releases[i].createdBranchId
  }

  /**
   * On a channel whose mapping this planner wrote (or that has none), no run
   * of releases ever meets an unrecognized structure; after a non-empty run
   * that succeeds, the newest clients go to the last branch created, and a
   * rollout in progress keeps as its default a branch that was live before.
   */
  lemma {:induction false} ReplayKeepsOneRollout(current: Option<BranchMapping>, releases: seq<Release>)
    requires Recognized(current)
    ensures Replay(current, releases) != Failure(UnrecognizedStructure)
    ensures Replay(current, releases).Success? ==> Recognized(Replay(current, releases).value)
    ensures |releases| > 0 && Replay(current, releases).Success? ==>
              var m := Replay(current, releases).value;
              m.Some? && LatestBranch(m.value) == Some(releases[|releases| - 1].createdBranchId)
    ensures |releases| > 0 && Replay(current, releases).Success? ==>
              var m := Replay(current, releases).value;
              m.Some? && m.value.Rollout? ==>
                m.value.defaultBranchId in CreatedBranches(releases)
                || (current.Some? && LatestBranch(current.value) == Some(m.value.defaultBranchId))
    decreases |releases|
  {
    if releases != [] {
      var rel := releases[0];
      var step := PlanBranchMapping(current, rel.createdBranchId, EffectiveRolloutPercent(rel.disabled, rel.rollout));
      if step.Success? {
        ReplayKeepsOneRollout(Some(step.value), releases[1..]);
        assert Replay(current, releases) == Replay(Some(step.value), releases[1..]);
        if |releases| > 1 {
          assert releases[1..][|releases[1..]| - 1] == releases[|releases| - 1];
        }
        assert rel.createdBranchId in CreatedBranches(releases);
        assert CreatedBranches(releases[1..]) <= CreatedBranches(releases) by {
          forall id | id in CreatedBranches(releases[1..]) ensures id in CreatedBranches(releases) {
            var i :| 0 <= i < |releases[1..]| && releases[1..][i].createdBranchId == id;
            assert releases[i + 1].createdBranchId == id;
          }
        }
      }
    }
  }
}
