# Cloud Foundry CLI: experimental `v2-push` display loop and CC v2 security groups

This project models two parts of the Cloud Foundry command-line client and proves properties of them.

1. **The experimental `v2-push` command** (`command/v2/v2_push_command.go`):
   - `processEvent` maps one push event to the status line it shows and the `(complete, error)` pair it returns.
   - `processApplyStreams` is the display loop for one application. It reads from three channels (events, warnings, errors), keeps the flags `eventClosed`, `warningsClosed` and `complete`, and after each receive decides whether to return nil, return an error, or keep looping.
   - `Execute` shows the experimental warning and calls the target check, flag reading, manifest merging and manifest conversion. It then runs the apply loop once per application config, in order, and stops at the first config whose loop returns an error.
2. **Cloud Controller v2 security groups** (`api/cloudcontroller/ccv2/security_group.go`):
   - `SecurityGroup.UnmarshalJSON` copies the parsed response into the receiver field by field. The GUID comes from `metadata` and the name and rules from `entity`.
   - The list callbacks of `GetSecurityGroups` and `getSpaceSecurityGroupsBySpaceAndLifecycle` append each security group they are handed and refuse any other item.

How the model is built:

- The Go `select` over three channels becomes an explicit **trace**: the items the loop received, in the order it received them. An item is a value or the zero value of a closed channel.
- `ApplyStreams.ProcessApplyStreams` is the loop as a `while` loop over the trace. It is proved equal to the function `ApplyStreams.RunOf`.
- `RunOf` defines the run declaratively. The flags are functions of the received prefix: `EventClosedAfter`, `WarningsClosedAfter` and `CompleteAfter`. The loop returns right after the first item for which `ReturnsAt` holds, with the outcome `OutcomeAt`. A trace that runs out before the loop returns gives the outcome `Running`: the loop has not returned yet. If every channel is still open, Go would be blocked in `select`. Otherwise it keeps receiving the closed channels' zero values.
- UI output is the sequence of calls made on the UI (`UICall`), not rendered text.
- `SecurityGroups.SecurityGroup` is a class. Its `rules` field is an array, and `UnmarshalJSON` allocates that array and fills it element by element.

Modules:

| file | module | contents |
|---|---|---|
| wrappers.dfy | `Wrappers` | `Option`, `Result` |
| push_model.dfy | `PushModel` | events, configuration, UI calls, `ProcessEvent` |
| apply_streams.dfy | `ApplyStreams` | the trace, the declarative run `RunOf`, the loop `ProcessApplyStreams` |
| apply_streams_props.dfy | `ApplyStreamsProperties` | what the loop promises, as lemmas about `RunOf` |
| apply_scenarios.dfy | `ApplyScenarios` | concrete runs |
| push_command.dfy | `PushCommand` | `Execute` and its per-config loop |
| security_group.dfy | `SecurityGroups` | decoding and the list callbacks |

### Where the code behaves unexpectedly

The model follows the code as written in each of these places:

- **A closed error channel ends the run as a success.** A receive from a closed error channel sets `warningsClosed`, not an error flag, and returns the zero error, which is nil (`command/v2/v2_push_command.go:162-167`). So the run reports success whatever `eventClosed` and `complete` are. One might expect success to need all three flags; `ApplyStreamsProperties.NormalSuccessNeedsAllFlags` states the exception.
- **The error channel has no priority.** A pending error is seen only when the `select` happens to choose it. The trace fixes that choice.
- **A closed warnings channel shows the empty batch.** `DisplayWarnings` is called with the zero batch.
- **The events channel can close without `Complete`.** The loop keeps looping only while the error channel stays open. Once the error channel closes, the loop returns nil (`ApplyScenarios.ScenarioClosedWithoutComplete`).
- **A closed channel is received from again and again.** A receive from a closed channel never blocks, so the loop spins. Each receive from the closed warnings channel shows the empty batch again (`ApplyScenarios.ClosedWarningsShowEmptyBatch`, `ApplyScenarios.ClosedWarningsRepeat`).

## Model

| member | source | states |
|---|---|---|
| PushModel.ProcessEvent | command/v2/v2_push_command.go:179-226 | Only `Complete` reports completion. The only error is a failed user lookup, and only `ApplicationCreated`/`ApplicationUpdated` look the user up. On error nothing is shown and the lookup's error is returned. An event shows nothing exactly when it is `Complete`, an unnamed event, or failed. |
| PushModel.EventLines | command/v2/v2_push_command.go:183-221 | The app events show the "Creating app …"/"Updating app …" template with exactly the keys AppName, OrgName, SpaceName and Username, bound to the app, org, space and user names. Each route or upload event shows its own fixed text. |
| PushModel.DistinctEventsDistinctLines | command/v2/v2_push_command.go:182-224 | Two different events that both show something never show the same call. |
| PushModel.UserLookupOnlyForAppEvents | command/v2/v2_push_command.go:214-225 | Events other than the two app events do not depend on the user lookup. |
| ApplyStreams.OutcomeAt | command/v2/v2_push_command.go:152-176 | A returning step never leaves the run `Running`. |
| ApplyStreams.RunFromShown | command/v2/v2_push_command.go:143-176 | From any position, the run consumes the items up to where it stops (all of them while it is still running) and shows the UI calls of exactly those items. |
| ApplyStreams.RunFromStops | command/v2/v2_push_command.go:143-176 | From any position, the run stops right after the first item on which the loop returns, with that item's outcome. It is `Running` exactly when no remaining item makes the loop return. |
| ApplyStreams.RunOfMeaning | command/v2/v2_push_command.go:140-177 | Over the whole trace, the run stops right after the first item on which the loop returns, with that item's outcome and the UI calls of every item up to it. It is `Running`, having shown every item's calls, exactly when no item makes the loop return. |
| ApplyStreams.ReceiveOne | command/v2/v2_push_command.go:145-167 | One receive: a closed events channel sets `eventClosed`. A closed warnings or a closed error channel sets `warningsClosed`. An event replaces the latest event. The item's calls are appended to the display. |
| ApplyStreams.RunStopsAt | command/v2/v2_push_command.go:143-176 | If the loop first returns at item k, the run is that item's outcome, the calls of items 0..k, and k+1 items consumed. |
| ApplyStreams.ProcessApplyStreams | command/v2/v2_push_command.go:140-177 | The loop's outcome, UI calls and number of received items are those of `RunOf`. |
| ApplyStreamsProperties.LatestEventIsLastEvent | command/v2/v2_push_command.go:152 | The latest event is `e` exactly when the last event item received is `e`. |
| ApplyStreamsProperties.CompleteIsLatestEventOnly | command/v2/v2_push_command.go:152-155 | `complete` holds after an event exactly when that event is `Complete`, so a later non-terminal event resets it. A non-event leaves it unchanged. |
| ApplyStreamsProperties.RenderedConcat | command/v2/v2_push_command.go:143-168 | The calls shown for two consecutive stretches of items are those of each stretch in turn. |
| ApplyStreamsProperties.ItemShownInPlace | command/v2/v2_push_command.go:145-168 | Every item the loop handled has its calls in the output, at the position right after the calls of the items before it. |
| ApplyStreamsProperties.WarningsShownWhole | command/v2/v2_push_command.go:156-161 | A received warnings batch is shown whole and in order, as one `DisplayWarnings` call. |
| ApplyStreamsProperties.NormalSuccessNeedsAllFlags | command/v2/v2_push_command.go:170-176 | A success that did not come from a closed error channel happens only when the events channel is closed, the warnings channel is closed, and the latest event is `Complete`. |
| ApplyStreamsProperties.ErrorChannelEndsRun | command/v2/v2_push_command.go:162-167 | Any receive on the error channel ends the run no later than that item. If the run ends there, its outcome is the received error, or success for a closed channel. |
| ApplyStreamsProperties.LookupFailureEndsRun | command/v2/v2_push_command.go:152-155 | A failed user lookup on `ApplicationCreated` or `ApplicationUpdated` ends the run no later than that item. If the run ends there, it fails with the lookup's error, and that item adds no UI call. |
| ApplyStreamsProperties.WarningsNeverFirstReturn | command/v2/v2_push_command.go:156-161 | A received warnings batch never makes a still-running loop return, so the run never ends on it. |
| ApplyStreamsProperties.RunDeterminedByConsumedPrefix | command/v2/v2_push_command.go:143-176 | Once the loop returns, later items change nothing: another trace with the same consumed prefix has the same run. |
| ApplyStreamsProperties.HonestProducerSucceeds | command/v2/v2_push_command.go:143-176 | A trace with no error values, a closed events and a closed warnings channel, and `Complete` as its last event ends in success when the user lookup works. |
| ApplyScenarios.OpenEventsKeepLoopRunning | command/v2/v2_push_command.go:145-173 | While the events channel is open, a non-error item whose event does not fail does not end the loop. |
| ApplyScenarios.FullPushReturnsOnWarningsClosed | command/v2/v2_push_command.go:143-176 | In a full push, the loop first returns on the closed warnings channel. |
| ApplyScenarios.ScenarioFullPush | command/v2/v2_push_command.go:140-226 | A full push succeeds after eight items: the loop returns on the closed warnings channel before it sees the closed error channel. It shows exactly the "Creating app" template, the four stage lines and the empty warnings batch, in that order (through the proof steps `FullPushItems`, `FullPushFirstLines` and `FullPushLines`). |
| ApplyScenarios.ClosedWarningsShowEmptyBatch | command/v2/v2_push_command.go:156-174 | For every trace and position, a receive from the closed warnings channel shows the empty batch as one `DisplayWarnings` call and, while `Complete` is not the latest event, does not make the loop return. |
| ApplyScenarios.ClosedWarningsRepeat | command/v2/v2_push_command.go:143-174 | In the trace "events closed, warnings closed, warnings closed" the loop receives from the closed warnings channel twice, shows the empty batch both times, and has not returned after the three items. |
| ApplyScenarios.ScenarioErrorAfterCreate | command/v2/v2_push_command.go:162-167 | An error right after `ApplicationCreated` fails the run at once, having shown only the "Creating app" line. |
| ApplyScenarios.ScenarioWarningAfterComplete | command/v2/v2_push_command.go:156-173 | A warning after `Complete` is still shown, and the run ends only once the events channel closes too. |
| ApplyScenarios.ScenarioClosedWithoutComplete | command/v2/v2_push_command.go:162-173 | Without `Complete` the loop keeps looping while the error channel is open, and returns nil once it closes. |
| PushCommand.FirstUnfinishedFrom | command/v2/v2_push_command.go:115-118 | Finds the first config whose loop did not return nil, with every config before it succeeding. `None` means every config succeeded. |
| PushCommand.FirstUnfinishedIs | command/v2/v2_push_command.go:112-122 | The first unfinished config is the one where the per-config loop stops. |
| PushCommand.ApplyConfigs | command/v2/v2_push_command.go:112-122 | Configs are applied in order. The shown calls are those of every run up to and including the first that did not return nil. That run's error, handled, is the result. If all succeed the result is nil. |
| PushCommand.Execute | command/v2/v2_push_command.go:75-123 | The experimental warning comes first. Target-check, flag and merge errors return at once, handled, with nothing else shown. "Getting app info..." and the conversion warnings are shown before the conversion error is checked. After that comes the per-config loop's outcome and output. |
| SecurityGroups.Decode | api/cloudcontroller/ccv2/security_group.go:44-52 | The GUID comes from `metadata.guid` and the name from `entity.name`. There are as many rules as wire rules, and rule i has the description, destination, ports and protocol of wire rule i. |
| SecurityGroups.RoundTrip | api/cloudcontroller/ccv2/security_group.go:26-52 | Decoding the wire form of a security group gives the same group back. |
| SecurityGroups.DecodeSameExactly | api/cloudcontroller/ccv2/security_group.go:26-52 | Two responses decode alike exactly when they agree on the metadata GUID, the entity name and the rules. |
| SecurityGroups.DecodeIgnoresEntityGuid | api/cloudcontroller/ccv2/security_group.go:26-44 | `entity.guid` is ignored. |
| SecurityGroups.MissingRulesDecodeEmpty | api/cloudcontroller/ccv2/security_group.go:46 | A response without rules decodes to a group with no rules. |
| SecurityGroups.SecurityGroup.constructor | api/cloudcontroller/ccv2/security_group.go:18-22 | A new `SecurityGroup` is the zero value. |
| SecurityGroups.SecurityGroup.UnmarshalJSON | api/cloudcontroller/ccv2/security_group.go:25-54 | On a parse error, that error is returned and the receiver is unchanged. Otherwise it returns nil, and the receiver holds `Decode` of the parsed struct with its rules in a new array. |
| SecurityGroups.Accept | api/cloudcontroller/ccv2/security_group.go:86-133 | A security group item is appended at the end. Any other item is refused with `UnknownObjectInListError` (expected the zero `SecurityGroup`, unexpected the item) and the list is unchanged. |
| SecurityGroups.CollectedAppendsGroupsIn | api/cloudcontroller/ccv2/security_group.go:86-96 | Calling the callback on items one by one appends exactly their security groups, in arrival order. |
| SecurityGroups.GroupsInConcat | api/cloudcontroller/ccv2/security_group.go:85-98 | The groups of consecutive batches of items are those of each batch in turn. |
| SecurityGroups.GroupsInFromItems | api/cloudcontroller/ccv2/security_group.go:86-96 | Every collected group arrived as an item, and there are never more groups than items. |
| SecurityGroups.SecurityGroupList.constructor | api/cloudcontroller/ccv2/security_group.go:85 | The list starts empty. |
| SecurityGroups.SecurityGroupList.AppendItem | api/cloudcontroller/ccv2/security_group.go:86-96 | The `GetSecurityGroups` callback does what `Accept` says, returning nil for an accepted item. |
| SecurityGroups.SecurityGroupList.AppendItemCapturing | api/cloudcontroller/ccv2/security_group.go:123-133 | The lifecycle callback does what `Accept` says. For an accepted item it returns the request error it captured from its enclosing function. |

## Left out

- Channels, goroutines and the random choice of `select` are replaced by a trace of received items. No concurrency is modelled.
- The actors and OS calls are inputs, not models: `Setup`, `shared.NewClients`, `CheckTarget`, `os.Getwd` in `GetCommandLineSettings`, `MergeAndValidateSettingsAndManifests`, `ConvertToApplicationConfig` and `Apply`. Only whether each one failed, and the conversion's configs and warnings, are used.
- `GetCommandLineSettings` is modelled only through its `os.Getwd` error. The settings it builds are not displayed.
- logrus logging has no effect on the result and is left out.
- UI template rendering is left out. A call is kept as its template string plus its parameter map.
- `shared.HandleError` is not part of this model. `PushCommand.Execute` wraps the error as `Handled(cause)` instead of translating it.
- `CurrentUser()` is an input that gives the same answer every time it is called during one run.
- `command.ExperimentalWarning` is not part of this model. Its text is written into `PushCommand.ExperimentalWarning`.
- A nil value sent on an open error channel is not modelled. `ErrorReceived` always carries an error.
- A loop that has not returned by the end of its trace is `Running`. `Execute` then ends as `Hung`: it is still inside that loop, blocked or looping over closed channels.
- `encoding/json` parsing is left out. `UnmarshalJSON` takes the parse result, either the wire struct or the parser's error.
- `internal.Metadata` is not part of this model. Only its `guid` is read.
- The paginator (`client.paginate`) is not part of this model: neither how it stops on a callback error nor its request warnings. The lemmas about the callbacks hold for any sequence of calls.
- The HTTP functions `AssociateSpaceWithSecurityGroup` and `RemoveSpaceFromSecurityGroup`, and the request building in `GetSecurityGroups`, `GetSpaceRunningSecurityGroupsBySpace`, `GetSpaceStagingSecurityGroupsBySpace` and `getSpaceSecurityGroupsBySpaceAndLifecycle`, are network I/O. They are left out.
- `api/uaa/internal/routes.go` is a static route table with no logic. It is left out.
- SecurityGroups.SecurityGroupList.AppendItemCapturing: the captured error is a parameter. That the guard in the enclosing function makes it nil whenever the callback runs is not modelled.
