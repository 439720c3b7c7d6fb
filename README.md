# Release-command core of eas-cli, modelled in Dafny

This project models the decision logic of the `codepush:release-react` command of
eas-cli, and the hand-written field checks of the `eas.json` build-profile schema.
The command publishes an update, then re-routes the deployment channel's traffic.
The command has three pieces of pure or sequential logic; the schema adds a fourth:

- **Rollout planner** (`rollout_planner.dfy`, module `RolloutPlanner`). It reads
  the channel's stored branch mapping and the `--disabled`/`--rollout` flags. It
  produces the next mapping, or one of the two errors the command throws:
  "Cannot start a rollout on a deployment when one is already in progress" and
  "Unrecognized custom deployment structure". A mapping is a datatype with
  four cases: `Empty`, `AlwaysTrue`, `Rollout` and an explicit `Unrecognized`.
- **Upload inactivity deadline** (`upload_deadline.dfy`, module `UploadDeadline`).
  The upload runs in a race against a watcher. Here that becomes a single-threaded
  state machine, the class `DeadlineTracker`. Its fields are the program's
  `timeAtWhichToTimeout`, `lastUploadedStorageKeys` and `lastAssetUploadResults`.
  It also holds the shared `cancelationToken` object. Each operation receives the
  current time `now` (milliseconds) as a parameter. The progress callback, the
  callback called each time an asset upload begins (retries included) and one
  pass of the watcher loop are methods. `Run` feeds them an interleaving of
  events in order. Each method is specified by a pure function on
  `TrackerState`, and the lemmas are proved about those functions.
- **Post-upload bookkeeping** (`publish_bookkeeping.dfy`, module
  `PublishBookkeeping`). It covers the uploaded/reused asset counts, one update
  group per runtime version, and the consecutive `splice(0, k)`. That splice
  hands the publish response out to the groups before signing.
- **Build-profile field checks** (`build_profile_schema.dfy`, module
  `BuildProfileSchema`). These are `semverSchemaCheck`, the
  `channel`/`releaseChannel` pattern, the cache-key length, and the enumerated
  fields. Each regular expression is run by a small recogniser function. The
  recogniser is proved equivalent to a declarative description.

`wrappers.dfy` holds the `Option` and `Result` datatypes.

Behaviour of the code worth knowing:

- The command passes the `--rollout` percent to `createRolloutBranchMapping`
  without checking its range. That function is not part of this model, so
  whether it refuses a value outside 0..100 is left open.
  `EffectiveRolloutPercent` is only in range when the flag is.
- A stored mapping that is the empty string counts as "no mapping", like `null`.
- `--disabled` only sets the percent to 0. A release on a channel with no
  mapping goes to every client even when it is disabled.
- The watcher tests the deadline before the token. Both ways out of its loop,
  the deadline and the `break`, set the token and throw the same timeout error.
- The timeout message lists the unfinished entries of the list passed to the
  last progress call that changed the finished set. If no asset ever finishes,
  no call changes that set, and the message lists no asset
  (`NothingFinishedKeepsEmptySnapshot`).
- `Joi.string()` refuses the empty string, so a cache key needs 1 to 128 characters.

## Model

| member | source | states |
|---|---|---|
| `RolloutPlanner.EffectiveRolloutPercent` | packages/eas-cli/src/commands/codepush/release-react.ts:475 | 0 when disabled, else the `--rollout` value, else 100; within 0..100 whenever the flag is |
| `RolloutPlanner.ExistingBranchMapping` | packages/eas-cli/src/commands/codepush/release-react.ts:476-481 | no mapping exactly when the stored string is null/undefined or empty; otherwise the parse of the stored string |
| `RolloutPlanner.PlanBranchMapping` | packages/eas-cli/src/commands/codepush/release-react.ts:478-502 | a success always routes the newest clients to the created branch; a rollout is produced exactly from always-true with percent ≠ 100, with default = old branch, runtime version "1" and the given percent; failure exactly on an unrecognized mapping or an existing rollout with percent ≠ 100, with the matching error |
| `RolloutPlanner.NextBranchMapping` | packages/eas-cli/src/commands/codepush/release-react.ts:475-502 | with no or empty stored mapping the result is always-true to the created branch, even for a `--disabled` release, which is then served to every client; on a channel with an always-true mapping a disabled release starts a 0% rollout, and it can never start any other rollout |
| `RolloutPlanner.FirstReleaseIsAlwaysTrue` | packages/eas-cli/src/commands/codepush/release-react.ts:478-483 | from no mapping or an empty one: always-true to the created branch, whatever the percent |
| `RolloutPlanner.FromAlwaysTrue` | packages/eas-cli/src/commands/codepush/release-react.ts:484-493 | from always-true: always-true to the created branch at 100, otherwise a rollout (old branch, created branch, "1", percent) |
| `RolloutPlanner.FromRollout` | packages/eas-cli/src/commands/codepush/release-react.ts:494-498 | from a rollout: 100 collapses to always-true on the created branch, any other percent fails with the rollout-in-progress error |
| `RolloutPlanner.UnrecognizedIsRefused` | packages/eas-cli/src/commands/codepush/release-react.ts:499-501 | an unrecognized mapping always fails with the unrecognized-structure error and is never coerced |
| `RolloutPlanner.ReplayKeepsOneRollout` | packages/eas-cli/src/commands/codepush/release-react.ts:475-507 | over any run of releases on a channel this planner wrote: never the unrecognized error; after a successful run the newest clients go to the last created branch, and a rollout's default is a branch created in the run or live before it (at most one rollout in progress) |
| `UploadDeadline.UploadProgressBounds` | packages/eas-cli/src/commands/codepush/release-react.ts:303-305 | the `done/total` counter satisfies 0 ≤ done ≤ total, and done = total exactly when every asset is finished |
| `UploadDeadline.TimedOutAssets` | packages/eas-cli/src/commands/codepush/release-react.ts:320-322 | one line per unfinished entry |
| `UploadDeadline.TimedOutAssetsAppend` | packages/eas-cli/src/commands/codepush/release-react.ts:320-322 | the list of a concatenation is the concatenation of the lists, so the snapshot's order is kept |
| `UploadDeadline.TimedOutAssetsExact` | packages/eas-cli/src/commands/codepush/release-react.ts:320-322 | every unfinished entry is listed as "\n- " + (originalPath ?? path), and every listed line comes from an unfinished entry |
| `UploadDeadline.TimeoutMessage` | packages/eas-cli/src/commands/codepush/release-react.ts:320-323 | a snapshot with every asset finished yields the bare message prefix, with no asset listed |
| `UploadDeadline.SnapshotConsistentPreserved` | packages/eas-cli/src/commands/codepush/release-react.ts:279-300 | the recorded key set is always the finished-key set of the recorded snapshot: true at start, kept by both callbacks and the watcher |
| `UploadDeadline.ProgressResetsOnlyOnChange` | packages/eas-cli/src/commands/codepush/release-react.ts:294-301 | the progress callback resets the deadline to now + 180000 and replaces both snapshots when the finished-key set differs, and changes nothing otherwise; reporting the same list twice is the same as once |
| `UploadDeadline.NothingFinishedKeepsEmptySnapshot` | packages/eas-cli/src/commands/codepush/release-react.ts:284-300 | while no asset has finished, progress reports neither move the deadline nor record a snapshot, so a timeout then lists no asset |
| `UploadDeadline.RetryPostponesTimeout` | packages/eas-cli/src/commands/codepush/release-react.ts:307-313 | after a retry at `now` the watcher leaves its loop exactly when the time reaches now + 180000 or the token is set |
| `UploadDeadline.TokenOnlySetByWatcher` | packages/eas-cli/src/commands/codepush/release-react.ts:285-319 | the callbacks leave the token alone; the watcher sets it exactly when it leaves its loop |
| `UploadDeadline.TimeoutSetsTokenAndReportsSnapshot` | packages/eas-cli/src/commands/codepush/release-react.ts:287-325 | for every interleaving, a timeout outcome comes with the token set and the message built from the last recorded snapshot; otherwise the token is unchanged |
| `UploadDeadline.NoTimeoutBeforeDeadline` | packages/eas-cli/src/commands/codepush/release-react.ts:284-318 | with a clock that does not go backwards, activity never brings the deadline forward, so a run whose watcher passes all come before the current deadline never times out |
| `UploadDeadline.CancelationToken.constructor` | packages/eas-cli/src/commands/codepush/release-react.ts:285 | the token starts unset |
| `UploadDeadline.DeadlineTracker.constructor` | packages/eas-cli/src/commands/codepush/release-react.ts:278-285 | deadline = now + 180000, empty key set and snapshot, fresh unset token |
| `UploadDeadline.DeadlineTracker.OnProgress` | packages/eas-cli/src/commands/codepush/release-react.ts:293-306 | new state is the progress transition of the old one; the key set changes exactly when the reported finished keys differ; returns the `done/total` counter |
| `UploadDeadline.DeadlineTracker.OnRetry` | packages/eas-cli/src/commands/codepush/release-react.ts:307-310 | the deadline becomes now + 180000 unconditionally, nothing else changes |
| `UploadDeadline.DeadlineTracker.WatcherStep` | packages/eas-cli/src/commands/codepush/release-react.ts:313-323 | throws exactly when the time reached the deadline or the token was set, and then the token is set and the error is the timeout message of the recorded snapshot |
| `UploadDeadline.DeadlineTracker.Run` | packages/eas-cli/src/commands/codepush/release-react.ts:287-325 | processing the events in order yields the outcome and final state of the event-run specification |
| `PublishBookkeeping.CountAssets` | packages/eas-cli/src/commands/codepush/release-react.ts:334-336 | uploaded normal assets = max(0, uploaded − bundles), never negative and never above the uploaded count; bundles + normal = uploaded when bundles ≤ uploaded; normal + reused = unique asset count |
| `PublishBookkeeping.BuildUpdateGroups` | packages/eas-cli/src/commands/codepush/release-react.ts:396-415 | one group per runtime version, in order; every group carries the created branch id, its runtime version, the message, the git commit hash, the dirty-tree flag and the signing flag; its keys are exactly its platforms, each holding that platform's update info when one exists |
| `PublishBookkeeping.DistinctPlatformsCount` | packages/eas-cli/src/commands/codepush/release-react.ts:398-403 | a group built from distinct platforms has as many keys as platforms |
| `PublishBookkeeping.SpliceStep` | packages/eas-cli/src/commands/codepush/release-react.ts:426-429 | one `splice(0, k)` takes exactly the updates between the group's start and end offsets and leaves the rest |
| `PublishBookkeeping.SplitAmongGroups` | packages/eas-cli/src/commands/codepush/release-react.ts:424-434 | one chunk per group; chunk i is the window of the response between the platform counts of the groups before it and up to it; the chunks concatenated are the in-order prefix of the response the groups asked for |
| `PublishBookkeeping.ExactResponseSplitsExactly` | packages/eas-cli/src/commands/codepush/release-react.ts:424-434 | when the response has one update per expected platform, every group gets exactly its platform count |
| `BuildProfileSchema.VersionPatternIsTriple` | packages/eas-json/src/build/schema.ts:76 | the recogniser for `^[0-9]+\.[0-9]+\.[0-9]+$` accepts exactly the strings made of three non-empty digit runs separated by two dots |
| `BuildProfileSchema.SemverSchemaCheck` | packages/eas-json/src/build/schema.ts:75-81 | accepted exactly for a version triple and then returned unchanged; otherwise refused with "<value> is not a valid version" |
| `BuildProfileSchema.AcceptedVersionShape` | packages/eas-json/src/build/schema.ts:75-80 | an accepted version has exactly two dots and only digits besides |
| `BuildProfileSchema.ValidateChannel` | packages/eas-json/src/build/schema.ts:15-16 | accepted exactly when non-empty, the first character in [a-z0-9] and every later one in [a-z0-9._-]; returned unchanged |
| `BuildProfileSchema.ValidateCacheKey` | packages/eas-json/src/build/schema.ts:6 | accepted exactly when 1 to 128 characters long; longer keys are refused as too long |
| `BuildProfileSchema.ValidateAllowed` | packages/eas-json/src/build/schema.ts:12-13 | an absent value yields the default; a present one is accepted exactly when it is in the allowed list, and is kept |
| `BuildProfileSchema.ValidateCredentialsSource` | packages/eas-json/src/build/schema.ts:12 | only 'local' or 'remote'; absent means 'remote' |
| `BuildProfileSchema.ValidateDistribution` | packages/eas-json/src/build/schema.ts:13 | only 'store' or 'internal'; absent means 'store' |
| `BuildProfileSchema.ValidateBuildType` | packages/eas-json/src/build/schema.ts:41 | Android `buildType` only 'apk' or 'app-bundle' |
| `BuildProfileSchema.ValidateEnterpriseProvisioning` | packages/eas-json/src/build/schema.ts:49 | iOS `enterpriseProvisioning` only 'adhoc' or 'universal' |
| `BuildProfileSchema.ConvertBoolean` | packages/eas-json/src/build/schema.ts:34 | the `Joi.boolean()` conversion: a string is a boolean exactly when it lower-cases to 'true' or 'false' |
| `BuildProfileSchema.AutoIncrementConversionExamples` | packages/eas-json/src/build/schema.ts:33-36 | 'True' and 'FALSE' are accepted as booleans on both platforms; 'yes' and 'Version' are refused |
| `BuildProfileSchema.ValidateAutoIncrement` | packages/eas-json/src/build/schema.ts:33-36 | any boolean, or a string that converts to one (then returned as that boolean); otherwise 'version' on both platforms, 'versionCode' only on Android (lines 33-36) and 'buildNumber' only on iOS (lines 50-53) |

## Left out

- The `Promise.race`, the `setTimeout` sleeps and `Date.now`. The time is a `now`
  parameter, and the interleaving of callbacks and watcher passes is an event list.
  The upload finishing is the event `UploadResolved`. A failed upload, which
  rejects the `Promise.race` with the upload's own error, is not modelled. Whatever
  the upload itself does with the token is not part of this model.
- `RolloutPlanner.PlanBranchMapping`: builds `Rollout(.., percent)` for every
  percent other than 100, including values outside 0..100.
  `createRolloutBranchMapping` is not part of this model and might refuse those
  values. If it does, the command throws where the model succeeds.
- `uploadAssetsAsync`, including its `5 + n` backoff, and
  `isUploadedAssetCountAboveWarningThreshold`. Their code is not part of this
  model. The counts they return are inputs of `CountAssets`.
- The branch-mapping codec: `getBranchMapping`, `getAlwaysTrueBranchMapping`,
  `createRolloutBranchMapping`, the three classifiers, and the `JSON.stringify`
  of the result. Their code is not part of this model. Parsing is a function
  parameter, and no serialization round-trip is claimed.
- `RolloutPlanner.ReplayKeepsOneRollout`: assumes that the channel store hands
  back the mapping last written, because the codec is not modelled.
- `RolloutPlanner.ErrorMessage` gives the two error texts. No contract is stated
  about it beyond its definition.
- GraphQL queries and mutations, manifest `fetch`, code signing (`signBody`,
  `getManifestBodyAsync`), bundling, VCS checks, spinners, `Log` and JSON output.
  These are I/O or calls into code that is not part of this model. This also
  covers the per-runtime summary loop and its "Publish response is missing
  updates" check, the empty deployment-name check, and the signing of each chunk.
- The spinner and log texts, such as `Uploading (n/m)` and the pluralised "asset"
  and "bundle" messages. Only the numbers behind them are modelled.
- Joi's own machinery: defaulting, `.empty(null)`, how `concat` merges keys, the
  `env` pattern, the untyped boolean and string fields, and the platform image
  lists `Android.builderBaseImages` and `Ios.builderBaseImages`, which are not
  part of this model.
- `BuildProfileSchema.ValidateCredentialsSource` and
  `BuildProfileSchema.ValidateDistribution` carry the common profile's defaults.
  The Android and iOS sections restate the same allowed values without a default.
- `UploadDeadline.DeadlineTracker.OnProgress`: each progress report is taken as a fresh list that never changes afterwards
  (`lastAssetUploadResults` is a `seq` of values). The program keeps a reference
  to the caller's array instead. If the upload updated that array or its entries
  in place, the timeout message would show the statuses at timeout time. The
  model does not capture that aliasing. `uploadAssetsAsync` is not part of this
  model, so which case holds is left open.
- Joi's type conversion is modelled only for `autoIncrement`, where a string
  such as 'true' or 'False' passes the boolean alternative. `Joi.boolean()`
  lower-cases with the full Unicode mapping. `BuildProfileSchema.ConvertBoolean`
  lower-cases only ASCII letters. No other character lower-cases to a letter of
  'true' or 'false', so the outcome is the same.
- `BuildProfileSchema.ValidateCacheKey` counts Dafny characters. The program
  counts UTF-16 code units.
- Other files of the repository: the `config` command (interactive prompts and
  file lookup), the Apple app-identifier mutation (a GraphQL wrapper), the
  `promote`, `patch` and `rollback` commands, and the top-level `eas.json` schema
  composition.
