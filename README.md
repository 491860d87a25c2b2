# deployman in Dafny

deployman is a command-line tool for blue/green deployments on AWS EC2. An
Application Load Balancer listener rule forwards traffic to two target
groups, "blue" and "green", by weight. Each colour has its own autoscaling
group. The fleet with a positive weight is *running* and the one with weight
zero or less is *idling*. A deployment does four things:

1. It gives the idle group the running group's capacity.
2. It waits until the idle target group reports enough healthy targets.
3. It optionally swaps the weights.
4. It optionally scales the now idle group in.

Application bundles live in an S3 bucket under `bundles/`. The newest 100 are
kept. A per-fleet pointer object `active_bundle_<fleet>` names the bundle that
fleet runs.

This project models that core and proves properties of it:

| file | module | models |
|---|---|---|
| `wrappers.dfy` | `Wrappers` | `Option`, `Result` and the errors that occur (an API error code, a plain failure, `RetryTimeout`, the retryer's wrapped failure) |
| `util.dfy` | `Util` | `Contains`, `One`, `Count`, `Any`, `All` of `internal/util.go`, as loops proved against their meaning |
| `retryer.dfy` | `Retryer` | `FixedIntervalRetryer.Start`: the bounded poll loop with its three exits |
| `strings.dfy` | `GoStrings` | the few Go string functions the core relies on (`HasPrefix`, `Index`, `Contains`, `Replace(…, 1)`, `TrimLeft`, `Itoa`) |
| `config.dfy` | `Config` | `NewConfig`: defaults, the `ssm:` source dispatch, the error paths and the required-field rule; the process-wide location cache as a class |
| `aws.dfy` | `Aws` | the value shapes behind the `AwsClient` interface (tuples, rules, groups, instances, scheduled actions, objects) |
| `mock_aws.dfy` | `MockAws` | the in-memory gateway of `test/e2e_awsclient.go`. Its state is a value `TestingState`. Every read is a function of that state. Every write is a method of the class `MockAwsClient` that updates its fields in place, proved equal to a `…Step` function. |
| `deployer.dfy` | `Deployment` | `internal/deployer.go`: fleet resolution, the health tally and gate, traffic update and swap, the capacity update, cleanup with drain polling, the scheduled-action move, and `Deploy`. The class `Deployer` runs against a `MockAwsClient`; each method is proved equal to a specification function. |
| `bundler.dfy` | `Bundling` | `internal/bundler.go`: the newest-first listing, bucket bootstrap, the retention loop, `Register`, `Activate`, `Download` and the listing rows; the class `Bundler` |
| `retention.dfy` | `BundleRetention` | the proof that `Register` leaves at most `MaxKeepBundles` bundles |
| `e2e.dfy` | `Scenarios` | the deployment and scheduled-action scenarios of `test/e2e_test.go` on the fixtures of `test/e2e_model.go` |
| `e2e_bundles.dfy` | `BundleScenarios` | the bundle scenarios of `test/e2e_test.go` |

The fake's state carries one addition, `failures`: the calls the provider
refuses, each with its API error code. The fake itself refuses no call that
way. With `failures` empty the model is exactly the fake. The field exists
so that the callers' error paths, written for the real provider, can be
reached and stated.

What the proofs establish about this revision of the code:

- **Swap with a hold.** With a positive hold, `SwapTraffic` writes 50/50 and
  then reads the weights back. It reads 50/50 and writes 50/50 again, so
  traffic ends evenly split (`Deployment.SwapWithHoldEndsEven`). On the test
  fixture with a hold, `Deploy(true, true, true)` then fails in the
  scale-in, because neither fleet's weight is zero. `Deploy(true, false,
  false)` ends at 50/50 (`Scenarios.DeployWithHoldFailsScaleIn`,
  `Scenarios.DeployWithHoldEndsEven`). The weights 100/0 that the tests
  expect after a 1 ns hold arise only with no hold
  (`Scenarios.DeployWithoutHold`).
- **Health-gate timeout.** A `RetryTimeout` from the health gate comes back
  from `Deploy` after the capacity copy. Nothing rolls it back, and the rule
  is untouched (`Deployment.DeployRoutingChangesOnlyBySwap`,
  `Scenarios.DeployHealthTimeout`).
- **Stickiness.** `UpdateTraffic` sends a fixed 10-second stickiness. The
  fake keeps its stored stickiness whatever is sent
  (`Deployment.UpdateTrafficEffect`).
- **Cleanup against the fake.** `CleanupAutoScalingGroup` returns
  `ProcessCompleted` beside the drain's error. The fake never removes
  instances, so cleaning up a group that has some always times out
  (`Deployment.CleanupNeverDrains`). A `Deploy` with the cleanup first then
  stops with `RetryTimeout` (`Scenarios.SceneDeployStuckCleanup`).
- **The `ssm:` parameter name.** The name is taken with `TrimLeft(path,
  "ssm:")`, which strips every leading `s`, `m` and `:`. So `ssm:myparam`
  reads the parameter `yparam` (`Config.SsmParameterNameOvertrims`).
- **Bundle retention.** `Register` keeps at most `MaxKeepBundles` bundles in
  the bucket (`BundleRetention.RegisterKeepsAtMostMax`). A hundred and one
  registrations of the same bundle leave exactly `MaxKeepBundles` objects
  (`BundleScenarios.Register101Cycle`).

The first four of these are behaviours of the code as written and are
modelled as such.

## Model

| member | source | states |
|---|---|---|
| Util.Contains | internal/util.go:9-17 | true exactly when some element equals the value |
| Util.One | internal/util.go:19-27 | nothing exactly when no element satisfies the condition; otherwise the element at the first position that satisfies it |
| Util.Count | internal/util.go:29-38 | the number of elements satisfying the condition (`CountOf`) |
| Util.CountOfBounded | internal/util.go:29-38 | the count never exceeds the length of the list |
| Util.CountOfIsPositionCount | internal/util.go:29-38 | the count equals the size of the set of positions whose element satisfies the condition |
| Util.CountOfDisjoint | internal/util.go:29-38 | the counts of two conditions that never hold together add up to the count of their disjunction |
| Util.Any | internal/util.go:40-48 | true exactly when some element satisfies the condition, so false on an empty list |
| Util.All | internal/util.go:50-58 | true exactly when every element satisfies the condition, so true on an empty list |
| Retryer.Start | internal/retryer.go:33-48 | the error, the number of handler calls and the number of sleeps are those of `Run`; the handler receives the indices 0, 1, 2, … in order |
| Retryer.RunShape | internal/retryer.go:34-47 | at most `maxLimit` calls (none when `maxLimit <= 0`); every call but the last continued; nil exactly when the last call gave `(FinishRetry, nil)`; a wrapped failure exactly when the last call gave an error, whatever its result, carrying that error; `RetryTimeout` exactly when all `maxLimit` calls continued; one sleep per continue |
| Retryer.RunFromShape | internal/retryer.go:34-47 | the same shape for the loop entered at any index `i` |
| Retryer.RunFromConstant | internal/retryer.go:34-47 | a handler that always continues ends in `RetryTimeout` after `maxLimit` calls and as many sleeps |
| Retryer.RunConstant | internal/retryer.go:34-47 | a handler that always gives the same answer runs as `ConstantRun` of that answer |
| GoStrings.Index | internal/bundler.go:128-131 | the first position where the substring occurs, and nothing exactly when it occurs nowhere; `strings.Contains`, which the status test uses, holds exactly when it finds one |
| GoStrings.ReplaceFirst | internal/bundler.go:140 | unchanged when the pattern does not occur; otherwise the first occurrence, wherever it is, is replaced and the rest kept; a leading pattern in particular |
| GoStrings.NatToString | test/e2e_awsclient.go:240-245 | a non-empty text of decimal digits, one digit exactly for numbers below 10, ending in the number's last digit |
| GoStrings.NatToStringInjective | test/e2e_awsclient.go:240-245 | different numbers give different texts, so the names one update appends are distinct |
| GoStrings.TrimLeft | internal/config.go:65 | the result is a suffix of the input; every dropped character is in the cutset, and the result does not start with one |
| Config.Decode | internal/config.go:52-61 | an absent retry policy or time zone takes the default (120 polls every 10 s; Asia/Tokyo at +32400 s); a given one is decoded onto the default, so an omitted member keeps its default; `null` clears it |
| Config.SsmParameterNameOvertrims | internal/config.go:65 | the path `ssm:myparam` reads the parameter `yparam` |
| Config.SsmParameterNameOfPrefixed | internal/config.go:64-65 | for `ssm:` followed by a name, the parameter read is that name exactly when the name is empty or does not start with `s`, `m` or `:` |
| Config.NewConfig | internal/config.go:51-89 | succeeds exactly when the source can be read, holds a JSON object and decodes to a configuration with every required field; the result is that decoded configuration; a missing parameter or file is an error |
| Config.LocationCache.constructor | internal/config.go:41 | the process starts with no cached zone |
| Config.LocationCache.CurrentLocation | internal/config.go:43-49 | the first call caches the zone of the time zone it is called on; every later call returns the cached zone, whatever time zone it is called on |
| Config.FirstCallWins | internal/config.go:41-49 | two different time zones asking in turn both get the first one's zone |
| MockAws.FirstIndex | test/e2e_awsclient.go:192-199 | the first position satisfying the condition, and nothing exactly when none does |
| MockAws.Filter | test/e2e_awsclient.go:32-45 | keeps only elements satisfying the condition, and no more than there were |
| MockAws.FilterCounts | test/e2e_awsclient.go:32-45 | every element satisfying the condition is kept as often as it occurs, and nothing else |
| MockAws.FastDelete | test/e2e_awsclient.go:276-286 | with no match, unchanged; otherwise one element fewer: the first match is removed and the order is not kept |
| MockAws.ListS3BucketObjects | test/e2e_awsclient.go:32-45 | fails only when the call is refused; nothing for a missing bucket or another bucket name; otherwise the stored objects whose key contains the prefix anywhere, in stored order (`Filter`), as key and time |
| MockAws.ListingComplete | test/e2e_awsclient.go:32-45 | every stored object whose key contains the prefix is listed, and the listing is no longer than the bucket |
| MockAws.HeadS3Bucket | test/e2e_awsclient.go:47-52 | unless the call is refused, "NotFound" exactly when there is no bucket and no error exactly when there is one, whatever name is asked for |
| MockAws.GetS3BucketObject | test/e2e_awsclient.go:135-149 | a success returns the content of the first object whose key contains the key; unless the call is refused, a bucket of that name answers with success exactly when some object's key contains the key |
| MockAws.GetALBListenerRule | test/e2e_awsclient.go:151-174 | succeeds exactly when the call is not refused and the rule ARN is the stored one; the rule is one forward action carrying the stored tuples in stored order and the stored stickiness |
| MockAws.DescribeALBTargetHealth | test/e2e_awsclient.go:176-190 | unless the call is refused, fails exactly for an ARN no stored group has; a success is the health states of the first stored group with that ARN |
| MockAws.DescribeALBTargetGroup | test/e2e_awsclient.go:202-212 | unless the call is refused, fails exactly for an ARN no stored group has; a success is the name of the first stored group with that ARN |
| MockAws.DescribeAutoScalingGroup | test/e2e_awsclient.go:192-200 | unless the call is refused, fails exactly for a name no group has; a success is the first group with that name |
| MockAws.DescribeScheduledActions | test/e2e_awsclient.go:256-264 | unless the call is refused, fails exactly for a name no group has; a success is the actions of the first group with that name |
| MockAws.CreateS3BucketStep | test/e2e_awsclient.go:54-66 | succeeds exactly when the call is not refused and there is no bucket yet, and then creates it with all three settings off and no objects; a failure changes nothing |
| MockAws.SetBucketFlagStep | test/e2e_awsclient.go:68-90 | succeeds exactly when the call is not refused and a bucket exists, and then turns its own setting on and leaves the other two, the name and the objects; the load balancer, the groups and the refusals never change; a failure changes nothing |
| MockAws.DeleteS3BucketObjectStep | test/e2e_awsclient.go:92-103 | only the bucket changes; no object is added, and every object left has a key containing the deleted key |
| MockAws.PutS3BucketObjectStep | test/e2e_awsclient.go:105-133 | with a bucket, whatever its name, the object is appended with the current time; without one nothing changes |
| MockAws.LastWithArn | test/e2e_awsclient.go:218-226 | an incoming tuple carrying the ARN, and nothing exactly when none carries it |
| MockAws.OverwriteLastWins | test/e2e_awsclient.go:218-226 | a stored group whose ARN some incoming tuple carries takes the last such tuple; every other stored group is unchanged |
| MockAws.ModifyALBListenerRuleStep | test/e2e_awsclient.go:214-228 | fails exactly for another rule ARN; on success each stored target group takes the last incoming tuple with its ARN and the others are kept; nothing but the stored target groups ever changes, the stickiness included |
| MockAws.NewInstances | test/e2e_awsclient.go:240-245 | `n` in-service instances named "ins0", "ins1", … |
| MockAws.UpdatedGroup | test/e2e_awsclient.go:233-250 | each given field is set and the others kept; a positive minimum size also appends that many instances, named from "ins0" up again on every update |
| MockAws.UpdateAutoScalingGroupStep | test/e2e_awsclient.go:230-254 | every group with that name is updated and every other entry is unchanged; the only error is a refusal, and then nothing changes |
| MockAws.UpdateGroupFields | test/e2e_awsclient.go:233-250 | the loop body computes `UpdatedGroup` |
| MockAws.UpdateUnknownGroup | test/e2e_awsclient.go:230-254 | an update naming no group leaves the state as it was |
| MockAws.PutScheduledUpdateGroupActionStep | test/e2e_awsclient.go:266-274 | the action is appended to each group with that name; nothing else changes |
| MockAws.DeleteScheduledActionStep | test/e2e_awsclient.go:276-286 | in each group with that name the first action with that name is removed; other groups are untouched |
| MockAws.DeleteActionRemovesOne | test/e2e_awsclient.go:276-286 | a named group loses exactly one action of that name when it has one, and is unchanged otherwise |
| MockAws.NoWriteRemovesInstances | test/e2e_awsclient.go:230-254 | no write of the fake removes a group or an instance: each group's old instances are a prefix of its new ones |
| MockAws.MockAwsClient.constructor | test/e2e_awsclient.go:24-26 | the gateway holds the given state |
| MockAws.MockAwsClient.CreateS3Bucket | test/e2e_awsclient.go:54-66 | the new state and error are those of `CreateS3BucketStep` |
| MockAws.MockAwsClient.EnableS3BucketVersioning | test/e2e_awsclient.go:68-74 | the new state and error are those of `SetBucketFlagStep` for versioning |
| MockAws.MockAwsClient.MakeS3BucketAclPrivate | test/e2e_awsclient.go:76-82 | the new state and error are those of `SetBucketFlagStep` for the private ACL |
| MockAws.MockAwsClient.DisableS3BucketPublicAccess | test/e2e_awsclient.go:84-90 | the new state and error are those of `SetBucketFlagStep` for the public access block |
| MockAws.MockAwsClient.DeleteS3BucketObject | test/e2e_awsclient.go:92-103 | the new state and error are those of `DeleteS3BucketObjectStep` |
| MockAws.MockAwsClient.PutS3BucketObject | test/e2e_awsclient.go:105-133 | the new state and error are those of `PutS3BucketObjectStep` |
| MockAws.MockAwsClient.ModifyALBListenerRule | test/e2e_awsclient.go:214-228 | the nested overwrite loops leave the state of `ModifyALBListenerRuleStep` |
| MockAws.MockAwsClient.UpdateAutoScalingGroup | test/e2e_awsclient.go:230-254 | the update loop leaves the state of `UpdateAutoScalingGroupStep` |
| MockAws.MockAwsClient.PutScheduledUpdateGroupAction | test/e2e_awsclient.go:266-274 | the append loop leaves the state of `PutScheduledUpdateGroupActionStep` |
| MockAws.MockAwsClient.DeleteScheduledAction | test/e2e_awsclient.go:276-286 | the delete loop leaves the state of `DeleteScheduledActionStep` |
| Deployment.FindTuple | internal/deployer.go:156-166 | the tuple found carries the ARN, and nothing is found exactly when no forward action carries it |
| Deployment.DeployTargetOf | internal/deployer.go:140-191 | an unknown target type is an error; otherwise it fails exactly when the rule or the group cannot be read; the fleet is "unknown" with the placeholder tuple `("missing", 0)` exactly when the rule does not forward to its ARN, and otherwise carries its type and a tuple with its ARN |
| Deployment.ReadWeight | internal/deployer.go:156-166 | against the fake, a fleet whose ARN is stored reads the tuple of the first stored group with that ARN |
| Deployment.ReadUniformWeight | internal/deployer.go:156-166 | when every stored group of a fleet's ARN has the same weight, that is the weight read |
| Deployment.DeployInfoOf | internal/deployer.go:287-317 | on success the running fleet's weight is positive and the idle one's is not, they are blue and green in some order, and each is what `GetDeployTarget` reads |
| Deployment.DeployInfoClassification | internal/deployer.go:287-316 | an error when the rule forwards to either configured ARN not at all; otherwise success exactly when one weight is positive and the other is not, with the positive one running (blue > 0 ≥ green gives idle green, running blue, and the mirror case the reverse) |
| Deployment.HealthInfoOf | internal/deployer.go:95-118 | succeeds exactly when the descriptions can be read, and is then their tally |
| Deployment.TallyPartition | internal/deployer.go:103-117 | the five counts plus the untallied descriptions make the total, so the five counts add up to at most the total |
| Deployment.HealthCheckResult | internal/deployer.go:418-444 | against a state that does not change while polling: passes exactly when the first poll sees at least `desired` healthy targets; times out exactly when there is no poll or too few are healthy; a read error is returned wrapped |
| Deployment.HealthGateOverTime | internal/deployer.go:418-444 | over any succession of states: every poll but the last read the group and saw too few healthy targets; the gate passes exactly when the last poll saw enough, and fails with a read error exactly when the last poll could not read |
| Deployment.UpdateTrafficEffect | internal/deployer.go:446-476 | each stored group of the blue ARN gets the blue weight, each of the green ARN the green weight, every other group is untouched, and the stored stickiness stays whatever it was |
| Deployment.UpdateTrafficSetsWeights | internal/deployer.go:446-476 | an accepted update leaves both fleets at the requested weights and keeps the groups, the rule and every stored ARN |
| Deployment.SwapWithHoldEndsEven | internal/deployer.go:478-499 | with a positive hold the swap ends with both fleets at 50 |
| Deployment.SwapWithoutHoldExchanges | internal/deployer.go:478-499 | with no hold the swap exchanges the two fleets' weights |
| Deployment.SentField | internal/deployer.go:504-513 | a capacity field is sent exactly when it is given and non-negative, and then unchanged |
| Deployment.CapacityUpdateEffect | internal/deployer.go:501-520 | each given, non-negative field of every group with that name is set; a missing or negative one leaves its field; other groups, the actions, the load balancer and the bucket do not change |
| Deployment.CleanupStep | internal/deployer.go:522-564 | a group with no instances is skipped with nothing changed; a failed scale-down is skipped with its error; otherwise desired and minimum go to 0, the maximum is kept, and `ProcessCompleted` comes with the drain poll's error |
| Deployment.CleanupNeverDrains | internal/deployer.go:529-563 | against the fake, cleaning up a group that has instances reports `ProcessCompleted` with `RetryTimeout` |
| Deployment.ScaledDownKeepsInstances | internal/deployer.go:540-551 | after the scale-down the drain poll still finds instances and continues |
| Deployment.UpdateKeepsInstances | internal/deployer.go:529-534 | scaling a group to zero keeps the first group of that name and its instances |
| Deployment.CopyOf | internal/deployer.go:580-591 | the copy keeps the action's schedule (desired, min, max, recurrence, start, end, time, time zone), names the target group and has no ARN |
| Deployment.MoveStep | internal/deployer.go:566-608 | an error exactly when the source group's actions cannot be read, and then nothing changes |
| Deployment.MoveOneEffect | internal/deployer.go:579-605 | a refused copy changes nothing; otherwise the target group gains the copy, and the group named in the action loses one action of that name unless the delete is refused; group settings never change |
| Deployment.StatusError | internal/deployer.go:193-243 | no error only when both fleets, both target-group names and both health tallies can be read; never a retry error |
| Deployment.CleanupBeforeStep | internal/deployer.go:332-344 | the optional cleanup before the rollout leaves the rule untouched |
| Deployment.SwapAndShowStep | internal/deployer.go:382-392 | the swap and its status read never end in `RetryTimeout` |
| Deployment.ScaleInStep | internal/deployer.go:394-413 | the scale-in leaves the rule untouched and never ends in `RetryTimeout` |
| Deployment.RolloutFacts | internal/deployer.go:358-416 | the rollout succeeds only when the idle group took the running group's capacity and then reported at least the running group's desired count healthy; a `RetryTimeout` leaves the rule untouched, and so does a rollout without the swap |
| Deployment.DeployRoutingChangesOnlyBySwap | internal/deployer.go:319-416 | a deployment without the swap, and one that ends in `RetryTimeout`, leave the rule as it was |
| Deployment.Deployer.constructor | internal/deployer.go:60-68 | the deployer holds the configuration and the gateway |
| Deployment.Deployer.GetHealthInfo | internal/deployer.go:95-118 | the result is `HealthInfoOf` the gateway's state |
| Deployment.Deployer.LifecycleCounts | internal/deployer.go:120-128 | one entry exactly for each lifecycle state present, holding the number of instances in it |
| Deployment.Deployer.GetDeployTarget | internal/deployer.go:140-191 | the result is `DeployTargetOf` the gateway's state |
| Deployment.Deployer.GetDeployInfo | internal/deployer.go:287-317 | the result is `DeployInfoOf` the gateway's state |
| Deployment.Deployer.ShowStatus | internal/deployer.go:193-243 | the error is `StatusError` of the gateway's state |
| Deployment.Deployer.DecideDeployTarget | internal/deployer.go:195-206 | a fleet taken from the given info, else read |
| Deployment.Deployer.HealthCheck | internal/deployer.go:418-444 | the retry loop's error is `HealthCheckResult` |
| Deployment.Deployer.UpdateTraffic | internal/deployer.go:446-476 | the new state and error are those of `UpdateTrafficStep` |
| Deployment.Deployer.SwapTraffic | internal/deployer.go:478-499 | the new state and error are those of `SwapTrafficStep` |
| Deployment.Deployer.UpdateAutoScalingGroup | internal/deployer.go:501-520 | the new state and error are those of `UpdateCapacityStep` |
| Deployment.Deployer.CleanupAutoScalingGroup | internal/deployer.go:522-564 | the new state, result and error are those of `CleanupStep` |
| Deployment.Deployer.MoveScheduledActions | internal/deployer.go:566-608 | the move loop leaves the state and error of `MoveStep` |
| Deployment.Deployer.Deploy | internal/deployer.go:319-416 | the new state and error are those of `DeployStep` |
| Deployment.Deployer.Rollout | internal/deployer.go:358-413 | the new state and error are those of `RolloutStep` |
| Bundling.InsertNewestFirst | internal/bundler.go:89-92 | inserting into a newest-first sequence gives a newest-first sequence holding exactly the old objects and the new one |
| Bundling.SortNewestFirst | internal/bundler.go:89-92 | the result is newest first and a permutation of the input |
| Bundling.ListBundleObjectsOf | internal/bundler.go:83-95 | fails exactly when the listing fails; otherwise the listed objects, newest first, each with a key containing `bundles/` |
| Bundling.BootstrapStep | internal/bundler.go:162-183 | nothing happens unless the probe says "NotFound"; then create, versioning, private ACL and public access block run in that order, stopping at the first failure, so the settings that are on form a prefix of that order; with no refusals the bucket ends with all three on |
| Bundling.DeleteFrom | internal/bundler.go:190-196 | the deletion loop from position `i` changes only the bucket, and nothing at all for fewer than `MaxKeepBundles` objects |
| Bundling.DeleteFromSkips | internal/bundler.go:190-191 | the newest `MaxKeepBundles - 1` positions are passed over |
| Bundling.DeleteFromDeletes | internal/bundler.go:191-194 | an older position is deleted by key, and the first failure ends the loop |
| Bundling.RemoveOldStep | internal/bundler.go:185-199 | a listing error is returned with nothing changed; fewer than `MaxKeepBundles` bundles change nothing; only the bucket's objects change |
| Bundling.RegisterStep | internal/bundler.go:161-219 | on success the upload was readable and the last object is the bundle under `bundles/<name>`, stamped with the current time; the load balancer and groups are untouched |
| Bundling.ActivateStep | internal/bundler.go:239-247 | the bundle name is appended as a text object under `active_bundle_<fleet>` |
| Bundling.DownloadOf | internal/bundler.go:249-258 | a pointer read error is returned; on success the file is named by the pointer's content, and its content is the bundle read from `bundles/<content>` |
| Bundling.ActiveBundleOf | internal/bundler.go:221-237 | a read pointer is the content of the first object whose key contains `active_bundle_<fleet>`; unless the read is refused, a bucket of the configured name yields one exactly when such an object exists |
| Bundling.ActivePointer | internal/bundler.go:98-108 | a pointer read with "NoSuchKey" is no pointer, any other error is an error, and a read pointer is its content |
| Bundling.BundleStatus | internal/bundler.go:127-137 | "active:[blue, green]", "active:[blue]", "active:[green]" or empty, according to which fleets' pointer values occur in the key |
| Bundling.BundleNameOfKey | internal/bundler.go:140 | the name a row shows for the object `bundles/<name>` is `name` again |
| Bundling.RowsOf | internal/bundler.go:125-148 | one row per object, in order, numbered from 1 |
| Bundling.ListingOf | internal/bundler.go:97-159 | succeeds exactly when both pointers and the listing can be read; row `i` is numbered `i + 1`, carries the object's time, the zone, the key with its first `bundles/` removed (wherever it occurs; the key contains one) and the status; the rows are newest first |
| Bundling.Bundler.constructor | internal/bundler.go:75-81 | the bundler holds the configuration and the gateway |
| Bundling.Bundler.ListBundleObjects | internal/bundler.go:83-95 | the result is `ListBundleObjectsOf` the gateway's state |
| Bundling.Bundler.CreateBucketIfNotExists | internal/bundler.go:162-183 | the new state and error are those of `BootstrapStep` |
| Bundling.Bundler.DeleteIfOld | internal/bundler.go:190-196 | one turn of the deletion loop advances `DeleteFrom` by one position, or ends it with its error |
| Bundling.Bundler.RemoveOldBundlesIfNeed | internal/bundler.go:185-199 | the deletion loop leaves the state and error of `RemoveOldStep` |
| Bundling.Bundler.Register | internal/bundler.go:161-219 | the new state and error are those of `RegisterStep` |
| Bundling.Bundler.GetActiveBundle | internal/bundler.go:221-237 | reads the pointer from the gateway's current state, with the outcome `Bundling.ActiveBundleOf` states |
| Bundling.Bundler.Activate | internal/bundler.go:239-247 | the new state and error are those of `ActivateStep` |
| Bundling.Bundler.Download | internal/bundler.go:249-258 | the result is `DownloadOf` the gateway's state |
| Bundling.Bundler.ActiveBundleOrNone | internal/bundler.go:98-108 | the result is `ActivePointer` of the gateway's state |
| Bundling.Bundler.Rows | internal/bundler.go:125-148 | the row loop builds `RowsOf` in the zone the cache hands out, and caches that zone once there is a row |
| Bundling.Bundler.ListBundles | internal/bundler.go:97-159 | the result is `ListingOf` the gateway's state in the zone the cache hands out |
| BundleRetention.DeleteOnBundleKeys | test/e2e_awsclient.go:92-103 | the fake's delete, seen on the bundle keys: what is left is a part of them (those containing the deleted key), less one copy of that key |
| BundleRetention.ListingIsTheBundles | internal/bundler.go:83-95 | with no refusals the bundle listing holds bundles only, and its keys are the bucket's bundle keys |
| BundleRetention.PotentialAtStart | internal/bundler.go:186-190 | before the deletions, every bundle beyond the newest `MaxKeepBundles - 1` is among the keys still to delete |
| BundleRetention.DeleteFromPrunes | internal/bundler.go:190-196 | with no refusals the deletion loop succeeds and changes only the bucket's objects, to their pruned form |
| BundleRetention.PrunedKeepsBound | internal/bundler.go:190-196 | when every bundle beyond the newest `MaxKeepBundles - 1` is still to delete, pruning leaves at most `MaxKeepBundles - 1` bundles |
| BundleRetention.RegisterKeepsAtMostMax | internal/bundler.go:185-219 | with no refusals and the configured bucket (or none yet), `Register` succeeds and leaves at most `MaxKeepBundles` bundles |
| Scenarios.InstancesOf | test/e2e_model.go:130-175 | one instance per lifecycle state, named after the fleet and numbered from 0 |
| Scenarios.SceneTargets | internal/deployer.go:140-191 | on the test fixture both fleets read back as laid out |
| Scenarios.SceneInfo | internal/deployer.go:287-317 | on the fixture the fleet with the positive weight runs and the other idles; any other split is refused |
| Scenarios.SceneHealth | internal/deployer.go:95-118 | the fixture's tallies are those of its health states |
| Scenarios.SceneStatus | internal/deployer.go:193-243 | every read of the status succeeds on the fixture |
| Scenarios.SceneNames | test/e2e_awsclient.go:202-212 | the fixture's target groups are named after their fleets |
| Scenarios.SceneTraffic | internal/deployer.go:446-476 | a traffic update sets the fleets' weights and changes nothing else |
| Scenarios.SceneCapacity | internal/deployer.go:501-520 | a capacity update changes only the named group |
| Scenarios.SceneSwap | internal/deployer.go:478-499 | with a positive hold both fleets end at 50; otherwise their weights are exchanged |
| Scenarios.SceneScaleIn | internal/deployer.go:394-413 | the scale-in sets only the idle group's minimum to 0, and fails when neither weight is zero |
| Scenarios.SceneGate | internal/deployer.go:358-375 | the idle group takes the running group's sizes; the gate passes exactly when enough idle targets are healthy, and times out otherwise |
| Scenarios.SceneSwapAndShow | internal/deployer.go:382-392 | the swap and the status read after it on the fixture |
| Scenarios.SceneFinish | internal/deployer.go:377-416 | after a passed gate the rollout ends as `FinishOutcome` says |
| Scenarios.SceneRollout | internal/deployer.go:358-416 | the rollout from the idle blue fleet ends as `DeployOutcome` says |
| Scenarios.SceneDeploy | internal/deployer.go:319-416 | `Deploy` with blue idle ends as `DeployOutcome` says when the cleanup before it has nothing to remove |
| Scenarios.SceneDeployStuckCleanup | internal/deployer.go:332-344 | a cleanup of an idle group that has instances scales it to zero, times out, and stops `Deploy` before traffic or the running group is touched |
| Scenarios.TestFleetsPlaced | test/e2e_test.go:69-77 | the test's fleets are laid out as configured, and blue has one healthy target |
| Scenarios.DeployWithoutHold | test/e2e_test.go:68-93 | with no hold, blue ends at weight 100 with sizes 1/1/2 and green at weight 0 with 1/0/2 |
| Scenarios.DeployWithoutScaleIn | test/e2e_test.go:122-147 | with the swap only and no hold, traffic moves to blue and green keeps 1/1/2 |
| Scenarios.DeployWithHoldFailsScaleIn | test/e2e_test.go:80-83 | with the tests' positive hold both fleets end at 50 and the scale-in refuses the even split |
| Scenarios.DeployWithHoldEndsEven | test/e2e_test.go:134-137 | with a positive hold and no scale-in, the deployment succeeds at 50/50 |
| Scenarios.DeployHealthTimeout | internal/deployer.go:371-375 | with the blue target unhealthy the gate times out after the capacity copy; traffic stays on green and nothing is cleaned up |
| Scenarios.MoveOneBetween | internal/deployer.go:579-605 | moving one action appends its copy to the target group and removes exactly it from the source group |
| Scenarios.MovePrefix | internal/deployer.go:579-605 | after `k` actions moved, the target holds their copies in order and the source the others |
| Scenarios.MoveEverything | internal/deployer.go:566-608 | every action leaves the source group and the target receives a copy of each, in order, with the same schedule |
| Scenarios.MoveTheTestAction | test/e2e_test.go:174-199 | after the move "fromASG" has no action and "toASG" has one |
| BundleScenarios.ListingOfStock | internal/bundler.go:83-95 | a bucket holding `q` copies of one bundle key lists `q` objects, all with that key |
| BundleScenarios.DeleteFromStock | test/e2e_awsclient.go:92-103 | deleting that key drops exactly one copy |
| BundleScenarios.DeleteFromTrims | internal/bundler.go:190-196 | the deletion loop over such a listing leaves `MaxKeepBundles - 1` copies, or all when there are fewer |
| BundleScenarios.TrimStock | internal/bundler.go:185-199 | the retention step on such a bucket leaves `MaxKeepBundles - 1` copies, or all when there are fewer |
| BundleScenarios.RegisterOnStock | internal/bundler.go:161-219 | one `Register` succeeds and leaves one more copy, capped at `MaxKeepBundles` |
| BundleScenarios.RegisterIfNoBucket | test/e2e_test.go:25-34 | the first registration creates the bucket with all three settings on and stores the bundle in it |
| BundleScenarios.RegisterEachCaps | test/e2e_test.go:36-43 | every registration succeeds, and the copies grow by one per registration up to `MaxKeepBundles` |
| BundleScenarios.Register101Cycle | test/e2e_test.go:36-43 | 101 registrations on a fresh state all succeed and leave exactly `MaxKeepBundles` objects |
| BundleScenarios.ActivateBoth | test/e2e_test.go:45-59 | registering and activating on both fleets succeeds and leaves the bundle and one pointer per fleet |
| BundleScenarios.ActivateOn | internal/bundler.go:239-247 | with no refusals `Activate` appends the pointer |
| BundleScenarios.ReadAt | test/e2e_awsclient.go:135-149 | a read returns the first object whose key contains the key asked for |
| BundleScenarios.ActivatedReads | internal/bundler.go:221-237 | after activation each pointer reads the bundle name, and the bundle reads its content |
| BundleScenarios.ActivatedListing | internal/bundler.go:83-95 | after activation only the bundle is listed |
| BundleScenarios.BundleRow | internal/bundler.go:125-148 | the row of a bundle both fleets run is numbered 1 and shows "active:[blue, green]" |
| BundleScenarios.ActivatedRows | internal/bundler.go:97-159 | the listing after activation is that one row |
| BundleScenarios.ActivationAndDownload | test/e2e_test.go:45-66 | after registering and activating on both fleets, the listing has that one row and the blue download is the bundle |

## Left out

- The AWS SDK plumbing. `DefaultAwsClient` and the direct SDK calls of `internal/deployer.go` are thin wrappers. The gateway is the fake of `test/e2e_awsclient.go`, whose shapes follow `internal/awsclient.go:18-42`. `GetDeployTarget` takes `Rules[0]` of the rule description; the fake's rule read is that rule.
- Fault injection. The `failures` map is an addition to the fake, so that the callers' error paths can be reached. The fake's own answers are modelled exactly when it is empty.
- Status rendering. `ShowStatus` is modelled as its reads and their first error; the table it prints is left out. So are `AsJSON` and `AsTable` of the bundle listing.
- The lifecycle string of `getLifecycleStates`. Its order follows Go map iteration; only the per-state counts are modelled.
- Real time. Sleeps are counted, not waited. The swap's hold is only compared with zero. The fake's clock `time.Now()` is a parameter `now` of the writes that stamp objects. A listing row carries the object's time and the zone instead of the RFC3339 text formatted from them.
- File, console and environment I/O. The upload file is a parameter `upload: Option<string>`, with `None` when it cannot be opened. `Download` stops at the content it would write; `os.WriteFile` is left out. The logger, `GetEnv` and `AskToContinue` are left out.
- JSON decoding and the validator library. `Config.Decode` starts from an already parsed document, and a source that is not a JSON object is an error. Validation is modelled as the required-field rule only.
- `cmd/deployman/main.go`. Flag parsing, signal handling, the context timeout and exit codes are CLI plumbing and concurrency.
- The commented-out suspend and resume of scaling processes in `internal/deployer.go`.
- Mismatched revisions. The four-argument `Deploy` of `cmd/deployman/main.go` is not reconciled. Neither is `UpdateAutoScalingGroupByTarget`, which `test/e2e_test.go:149-172` calls but `internal/deployer.go` does not define, so that scenario is not modelled. `NewConfig` takes its parameter store and file system as maps. `Region()` and `GetRegion` are one constant region.
- The test builders of `test/e2e_model.go` appear only as the fixtures `Scenarios.Scene`, `Scenarios.ActionScene` and `BundleScenarios.FreshState`. The scheduled-action and bundle tests leave the load balancer nil; here it is an arbitrary parameter.
- Integer widths. Weights, capacities and counts are unbounded integers, not `int32`. The values the code handles are far below the limit, and no wrap-around is modelled.
- `test/e2e_awsclient.go` calls `internal.Map` (lines 39, 155, 183), `Filter` (35, 95), `FirstOrNil` (137, 177, 193, 203, 257) and `FastDelete` (99, 280), which `internal/util.go` at this revision does not define. They are given plain list semantics: `Filter` keeps the matching elements in order, `FirstOrNil` returns the first match, and `FastDelete` removes the first match by moving the last element into its place, and the order is not kept.
- Instance names. `UpdateAutoScalingGroup` in the fake numbers the instances it appends from "ins0" on every call (test/e2e_awsclient.go:240-245). So scaling the same group up twice holds "ins0" twice. The model keeps these repeats, and no member promises that a group's instance names are distinct across updates.
- `listBundles`: the in-place `sort.Slice` is modelled as a function on the sequence. It is an insertion sort proved newest-first and a permutation. `sort.Slice` is not stable, and which order it gives objects with equal times is not modelled. The retention bound and the 101-registration result hold whatever that order.
- The fake's missing object. The fake answers a read of a missing key with a plain failure, not "NoSuchKey". So against the fake a missing pointer fails `ListBundles` instead of showing no pointer. The model keeps that behaviour; `Bundling.ActivePointer` states the "NoSuchKey" rule for a provider that answers that code.
- Retryer.Start: counts the sleeps but not their length. The handler's pointer to the interval is not modelled; no handler in this code writes through it.
- Deployment.Deployer.SwapTraffic: the hold is not waited; only its sign matters.
- Deployment.HealthCheckResult: assumes the gateway does not change while the gate polls, as the fake does not; `Deployment.HealthGateOverTime` covers any succession of states.
- Deployment.CleanupBeforeStep: its own contract states only that the rule is untouched. Its full effect on the test fixture is stated by `Scenarios.SceneDeploy` and `Scenarios.SceneDeployStuckCleanup`.
- Deployment.SwapAndShowStep: its own contract states only that no `RetryTimeout` comes out. Its effect is stated by `Deployment.SwapWithHoldEndsEven`, `Deployment.SwapWithoutHoldExchanges` and `Scenarios.SceneSwapAndShow`.
- Deployment.ScaleInStep: its own contract states only that the rule is untouched and that no `RetryTimeout` comes out. Its effect on the fixture is stated by `Scenarios.SceneScaleIn`.
- Deployment.StatusError: states when no error comes out, not which read's error comes out first.
- Deployment.MoveStep: states when the move errs. Its effect is stated by `Deployment.MoveOneEffect` and `Scenarios.MoveEverything`.
- MockAws.DeleteS3BucketObjectStep: its contract states only what the objects left can be. The exact effect on the bundle keys is `BundleRetention.DeleteOnBundleKeys`.
- Bundling.RegisterStep: its contract states the appended bundle. Retention is `BundleRetention.RegisterKeepsAtMostMax`.
