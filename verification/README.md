# Device-owner provisioning, modelled in Dafny

This project models the core of Android's ManagedProvisioning app that turns a
device into a managed ("device owner") device:

- **`DeviceOwnerProvisioningService`** — the controller. Its first start
  command launches provisioning on a worker. Every later start command only
  replays the last status to the activity. The worker runs a short bootstrap:
  time zone, time and locale, whose failures are swallowed. It then runs a
  chain of steps, each started from the previous step's success callback:
  Wi-Fi → download → install → set device owner → delete non-required apps.
  The Wi-Fi, download and install prefix is skipped when no download location
  was given. A step's error code is translated by a fixed table into a
  user-visible error message, and the chain stops there.
- **`SetDevicePolicyTask`** — the set-device-owner step. It checks that the
  admin package is installed, resets its enabled setting to DEFAULT, adds it
  as an active admin, and makes it device owner if it is not already.
- **`WebActivity`** — a web view that shows one start URL. A link click loads
  its URL only when an allowed URL base was given and the URL starts with it.

The model is functional. The service's fields form one immutable record.
`Start` is one atomic transition, standing for the `synchronized` block.
`Advance` is one step of the worker: either the thread body (bootstrap, then
the first step) or the callback of the step that is running. A `phase` field
records which callback is pending; the Java class keeps this only implicitly.
Each step's outcome comes from an `Oracle`: success, or an error code, and for
the download its reported location. Broadcasts to the activity and step
launches are appended to an event trace.

`ProvisioningProperties` defines the chain independently as a route: the list
of step kinds, worked through up to the first failure (`Attempted`,
`Announce`). It proves that the state machine follows that route. The other
trace properties are proved from that and from the machine itself.

Files: `common.dfy` (Option, `TextUtils.isEmpty`), `messages.dfy` (progress
and error message ids), `provisioning_steps.dfy` (step inputs, outcomes, error
tables), `provisioning_service.dfy` (the controller),
`provisioning_properties.dfy` (lemmas), `set_device_policy_task.dfy`,
`web_activity.dfy`.

## Model

| member | source | states |
|---|---|---|
| ProvisioningService.Start | src/com/android/managedprovisioning/DeviceOwnerProvisioningService.java:98-134 | The first start marks the service in flight, records the parameters, sends the data-processing progress message and launches the worker. A later start leaves the state unchanged and starts no step; it only replays the status. Both keep the reachable-state invariant. |
| ProvisioningService.Replay | src/com/android/managedprovisioning/DeviceOwnerProvisioningService.java:102-115 | The replay is exactly the last progress message, then the recorded error if any, then the success if done: it has one event per recorded item and no other, the progress message comes first and the success last. It starts no step. |
| ProvisioningService.Advance | src/com/android/managedprovisioning/DeviceOwnerProvisioningService.java:139-263 | One callback of the worker keeps the invariant and strictly shortens the remaining chain. It either halts with exactly one terminal broadcast or broadcasts nothing terminal. Any progress message it sends ranks above the last one and becomes the recorded one. Any step it starts is the one whose callback is then awaited. Only the thread body touches the settings. |
| ProvisioningService.ProgressAndRun | src/com/android/managedprovisioning/DeviceOwnerProvisioningService.java:279-284 | `progressUpdate` then the next task: the progress message is recorded and sent, then the task is started and its callback awaited. Nothing else in the service or the settings changes. |
| ProvisioningService.Fail | src/com/android/managedprovisioning/DeviceOwnerProvisioningService.java:265-269 | `error`: the message is recorded and broadcast, and the worker halts. Progress, parameters and the done flag are unchanged. |
| ProvisioningService.Succeed | src/com/android/managedprovisioning/DeviceOwnerProvisioningService.java:293-301 | `onProvisioningSuccess`: done is set and a success carrying the parameters is broadcast, and the worker halts. The recorded error and progress are unchanged. |
| ProvisioningService.StartChain | src/com/android/managedprovisioning/DeviceOwnerProvisioningService.java:251-262 | With a download location the chain opens with the Wi-Fi progress message and the Wi-Fi task. Otherwise it opens with set-owner and the policy task. The opening task's callback is awaited. |
| ProvisioningService.Chain | src/com/android/managedprovisioning/DeviceOwnerProvisioningService.java:139-263 | Once launched, the worker always halts: no callback is left pending. The in-flight flag and the parameters are unchanged. |
| ProvisioningService.Provision | src/com/android/managedprovisioning/DeviceOwnerProvisioningService.java:116-131 | A fresh service started once ends halted, holds the start command's parameters, and its first broadcast is the data-processing progress message. |
| ProvisioningService.SetTimeAndTimezone | src/com/android/managedprovisioning/DeviceOwnerProvisioningService.java:314-329 | The time zone changes only to a non-null requested zone, and the time only to a positive requested time. A throw by the time-zone call also skips the time call. The locale is untouched. |
| ProvisioningService.SetLocale | src/com/android/managedprovisioning/DeviceOwnerProvisioningService.java:331-344 | The locale changes only to a non-null requested locale; with no fault it is applied. Time and time zone are untouched. |
| ProvisioningService.Bootstrap | src/com/android/managedprovisioning/DeviceOwnerProvisioningService.java:303-312 | Each setting changes only as its guard allows. When nothing throws, every requested setting is applied. |
| Steps.DownloadErrorMessage | src/com/android/managedprovisioning/DeviceOwnerProvisioningService.java:170-183 | A hash mismatch is reported as hash_mismatch and a failed download as download_failed, and only those. Any other code is reported as general. |
| Steps.InstallErrorMessage | src/com/android/managedprovisioning/DeviceOwnerProvisioningService.java:195-208 | An invalid package is reported as package_invalid and a failed installation as installation_failed, and only those. Any other code is reported as general. |
| Steps.PolicyErrorMessage | src/com/android/managedprovisioning/DeviceOwnerProvisioningService.java:220-233 | A missing package is reported as package_not_installed. A missing receiver is reported as package_invalid. Any other code is reported as general. |
| Steps.ErrorMessageIdentifiesCause | src/com/android/managedprovisioning/DeviceOwnerProvisioningService.java:153-248 | Each error message identifies the failing step and cause, both directions. The exceptions: package_invalid is shared by an install failure and a missing policy receiver, and general is shared by every unrecognised code and the delete step. |
| Steps.PolicyOutcome | src/com/android/managedprovisioning/task/SetDevicePolicyTask.java:30-31 | The service reads the task's callback as success exactly on onSuccess. Only code PACKAGE_NOT_INSTALLED becomes "package not installed". No task code becomes NO_RECEIVER. |
| Steps.PolicyTaskErrorMessage | src/com/android/managedprovisioning/DeviceOwnerProvisioningService.java:220-233 | A policy failure coming from the task fails exactly when the package is not installed, and it is always shown as package_not_installed. |
| SetDevicePolicyTask.Run | src/com/android/managedprovisioning/task/SetDevicePolicyTask.java:56-77 | Exactly one callback fires. The task errors exactly when the package is not installed (the package lookup fails, `IsPackageInstalled`); it then reports PACKAGE_NOT_INSTALLED and makes no call, and it never reports OTHER. On success the package's setting is DEFAULT, (package, receiver) is an active admin and the package is device owner. The enable setter is called exactly when the setting differed, and the owner setter exactly when the package was not owner. The new state is the call log applied in order. |
| SetDevicePolicyTask.EnableDevicePolicyApp | src/com/android/managedprovisioning/task/SetDevicePolicyTask.java:79-86 | At most one call is made, and only when the setting is not DEFAULT. Afterwards the setting is DEFAULT. |
| SetDevicePolicyTask.SetActiveAdminEffect | src/com/android/managedprovisioning/task/SetDevicePolicyTask.java:88-92 | On any device, applying the call adds exactly (package, receiver) to the active admins and changes nothing else. |
| SetDevicePolicyTask.SetDeviceOwnerCalls | src/com/android/managedprovisioning/task/SetDevicePolicyTask.java:94-99 | The owner is written exactly when the package is not already device owner. Afterwards it is the owner. |
| SetDevicePolicyTask.RunFrame | src/com/android/managedprovisioning/task/SetDevicePolicyTask.java:56-99 | Installed packages and other packages' settings never change. The admin set gains exactly the (package, receiver) component, and only when the package is installed. The owner changes only when the package was installed and not already owner. |
| SetDevicePolicyTask.RunIdempotent | src/com/android/managedprovisioning/task/SetDevicePolicyTask.java:79-99 | A second run leaves the device as the first left it and reports the same callback. When the package is installed, the second run's only call is setActiveAdmin. |
| ProvisioningProperties.ChainFollowsRoute | src/com/android/managedprovisioning/DeviceOwnerProvisioningService.java:143-249 | From any pending callback, the steps started and the broadcasts sent are exactly those of the reference route for the remaining steps. |
| ProvisioningProperties.ProvisionFollowsRoute | src/com/android/managedprovisioning/DeviceOwnerProvisioningService.java:139-263 | A run starts exactly the route's steps up to and including the first failure. It broadcasts data processing followed by the route's announcements and its verdict. |
| ProvisioningProperties.ChainEndsWithOneTerminal | src/com/android/managedprovisioning/DeviceOwnerProvisioningService.java:265-301 | The worker's trace has exactly one error or success, and it is the last event, so no progress, step or success follows an error. "Done" holds exactly on success and an error is recorded exactly on error. Success carries the parameters and leaves set-owner as the last progress. |
| ProvisioningProperties.ChainProgressAdvances | src/com/android/managedprovisioning/DeviceOwnerProvisioningService.java:279-284 | Every progress message the worker sends ranks above the last one sent, and the messages strictly advance. |
| ProvisioningProperties.ProvisionHalts | src/com/android/managedprovisioning/DeviceOwnerProvisioningService.java:116-131 | A run has exactly one terminal broadcast, at the end, and its progress messages strictly increase in chain order. The service records success (with the original parameters) or the reported error, never both. |
| ProvisioningProperties.ProvisionStopsAtFirstFailure | src/com/android/managedprovisioning/DeviceOwnerProvisioningService.java:153-248 | When the i-th route step is the first to fail, exactly the steps up to it run. The run ends with that step's mapped error, which is also the recorded error. |
| ProvisioningProperties.ProvisionSucceedsWithoutFailure | src/com/android/managedprovisioning/DeviceOwnerProvisioningService.java:143-249 | When no step on the route fails, every route step runs in order, the run ends with success, and the service is done. |
| ProvisioningProperties.AllStepsSucceed | src/com/android/managedprovisioning/DeviceOwnerProvisioningService.java:143-262 | With a download location and all steps succeeding: progress is data_process, connect_to_wifi, download, install, set_owner, then one success with the original parameters. All five steps run. The policy step adds no progress message. |
| ProvisioningProperties.DownloadHashMismatchHalts | src/com/android/managedprovisioning/DeviceOwnerProvisioningService.java:170-175 | A hash mismatch after Wi-Fi halts the run with hash_mismatch recorded. Install, policy and delete never run. |
| ProvisioningProperties.BranchOnDownloadLocation | src/com/android/managedprovisioning/DeviceOwnerProvisioningService.java:251-262 | With a download location the chain opens with the Wi-Fi progress message and the Wi-Fi step. Without one it opens with set-owner and the policy step, and only the policy and delete steps ever run. |
| ProvisioningProperties.PolicyTaskOutcomeReported | src/com/android/managedprovisioning/DeviceOwnerProvisioningService.java:211-234 | The task model is plugged in as the policy step on the no-download path. A missing package ends the run with package_not_installed after only the policy step. An installed one ends in success when deleting apps succeeds. |
| ProvisioningProperties.ChainInstallsDownloadedLocation | src/com/android/managedprovisioning/DeviceOwnerProvisioningService.java:163-167 | Every install step the worker starts receives exactly the location the completed download reported. |
| ProvisioningProperties.ProvisionInstallsDownloadedLocation | src/com/android/managedprovisioning/DeviceOwnerProvisioningService.java:159-168 | In a whole run, any started install step received the download step's reported location. |
| ProvisioningProperties.ChainIgnoresBootstrap | src/com/android/managedprovisioning/DeviceOwnerProvisioningService.java:125-130 | The worker's events and service state do not depend on the settings or on which bootstrap calls throw. |
| ProvisioningProperties.BootstrapFailuresAreSwallowed | src/com/android/managedprovisioning/DeviceOwnerProvisioningService.java:303-344 | Runs that differ only in bootstrap faults and prior settings broadcast the same events, start the same steps and end in the same service state. A bootstrap failure is never a step error. |
| ProvisioningProperties.ProvisionSettings | src/com/android/managedprovisioning/DeviceOwnerProvisioningService.java:303-312 | The settings after a run are exactly the bootstrap's result; no step changes them. |
| ProvisioningProperties.ExecuteFollowsChain | src/com/android/managedprovisioning/DeviceOwnerProvisioningService.java:101-131 | Once launched, under any interleaving of start commands and callbacks, the steps started so far plus those still to come are exactly the uninterrupted worker's steps. The parameters are kept. |
| ProvisioningProperties.SingleFlight | src/com/android/managedprovisioning/DeviceOwnerProvisioningService.java:101-131 | After a first start, any later starts (with any parameters) and callbacks start a prefix of the single run's steps, so no step runs twice or out of order. The first start's parameters are kept. |
| ProvisioningProperties.ReplayAfterEnd | src/com/android/managedprovisioning/DeviceOwnerProvisioningService.java:102-115 | A start after the run ended changes nothing and starts nothing. It re-sends the last progress message and then the run's terminal broadcast; after success that is set_owner and then success with the original parameters. |
| WebActivity.CreateIntent | src/com/android/managedprovisioning/preprovisioning/WebActivity.java:109-114 | Reading back the URL and allowed-base extras of the created intent returns the values put in, null included. |
| WebActivity.OnCreate | src/com/android/managedprovisioning/preprovisioning/WebActivity.java:66-73 | The activity finishes without loading anything exactly when no URL extra is present. Otherwise it shows that URL and installs a filter with the allowed-base extra. |
| WebActivity.StartsWith | src/com/android/managedprovisioning/preprovisioning/WebActivity.java:78 | The character-by-character test agrees with "is a prefix of". |
| WebActivity.ShouldOverrideUrlLoading | src/com/android/managedprovisioning/preprovisioning/WebActivity.java:74-83 | Every request is overridden, so the view never navigates by itself. The requested URL is loaded exactly when an allowed base was given and is a prefix of it, and nothing else is loaded. |
| WebActivity.ClicksStayUnderBase | src/com/android/managedprovisioning/preprovisioning/WebActivity.java:74-83 | After any clicks, the page is the start page or a URL starting with the allowed base. Without a base, no click changes anything. |
| WebActivity.CreateThenOpen | src/com/android/managedprovisioning/preprovisioning/WebActivity.java:66-72 | Starting the activity from `createIntent(url, base)` shows `url` with filter `base`, or finishes when `url` is null. |

## Notes on the source

- **Revision mismatch in the policy step.** `DeviceOwnerProvisioningService.java:211-234`
  builds `SetDevicePolicyTask` with a callback argument and names
  `SetDevicePolicyTask.ERROR_NO_RECEIVER`. The task file
  (`task/SetDevicePolicyTask.java:30-31, 41-54`) has a four-argument constructor
  plus `setCallback`, and declares only `ERROR_PACKAGE_NOT_INSTALLED` (0) and
  `ERROR_OTHER` (1). The model keeps the task's codes as declared
  (`SetDevicePolicyTask`). The service's table is kept over the codes the
  service names (`Steps.PolicyCode`). `Steps.PolicyOutcome` bridges the two:
  code 0 is "package not installed", and every other code falls to the default
  branch, so `NoReceiver` is never produced by `SetDevicePolicyTask` as declared in
  this revision.
- In that constructor call, the service passes the owner display name where
  the task expects the admin receiver. The model's task keeps the two inputs
  separate.
- **Ambiguity kept as written.** The service maps NO_RECEIVER to the
  package_invalid message (`DeviceOwnerProvisioningService.java:226-227`). An
  install-step PACKAGE_INVALID and a missing receiver therefore share one
  message (`Steps.ErrorMessageIdentifiesCause`).
- **Comment versus code in `WebActivity`.** The comments at
  `WebActivity.java:38-41` and `:51-52` say that without an allowed base
  browsing is unrestricted. The code (`:77-81`) loads a clicked URL only when a
  base is present, and always overrides the request. So without a base, no
  link click loads anything. The model follows the code
  (`WebActivity.ClicksStayUnderBase`).
- Progress messages strictly increase along the chain order: no step repeats
  a message and none goes back (`ProvisioningProperties.ChainProgressAdvances`).

## Left out

- Thread creation and the lock: `Start` is one atomic transition. Interleaving
  is modelled at the level of whole start commands and whole callbacks
  (`ProvisioningService.Execute`).
- `LocalBroadcastManager` intents and resource-string lookups: broadcasts are
  typed events, and message ids are enum values.
- AlarmManager and LocalePicker: only the guard conditions and the swallowed
  exceptions are kept. Which call throws is an oracle input
  (`Steps.BootstrapFaults`).
- ProvisioningService.Bootstrap: the CDMA activation `startActivity`
  (`DeviceOwnerProvisioningService.java:306-311`) is not modelled, and it is
  not inside any try. If no activity handles the action, the exception leaves
  the worker before the first step: no step runs and no error or success is
  ever broadcast. The model assumes the call returns, so `ProvisioningService.Chain`
  ("always halts") and `ProvisioningProperties.BootstrapFailuresAreSwallowed`
  hold only under that assumption.
- Internals of the Wi-Fi, download, install and delete-apps tasks, whose
  sources are not part of this model: only their outcomes are modelled, one
  per step. The integer values of their error codes are not modelled, so each
  code the service distinguishes is a constructor, and any other is an
  `Other…Code(int)`.
- Each task is assumed to fire exactly one callback. A task firing twice, or
  never, is not modelled: a missing callback just leaves the worker pending.
- `onDestroy` clean-up, `onCreate` and `onBind`: they release resources or log.
- A start intent without parameters (the worker would throw on the null
  reference): `Start` takes a `Params` value.
- ProvisioningService.Replay: with no progress recorded it sends no progress
  event, where the source would broadcast id -1. That state is unreachable,
  because in-flight states always have a progress message (`ProvisioningService.Valid`).
- The wifi hidden flag, security type, password, proxy, PAC URL and download
  cookie header are passed to tasks whose internals are not modelled, so
  they are omitted from `Params`.
- `localTime` is a Java `long`. It is only compared with 0 and copied, so it
  is an unbounded `int`.
- SetDevicePolicyTask.Run: a `DevicePolicyManager` that refuses a new owner
  while another package owns the device, and PackageManager exceptions, are
  not modelled. Neither is a throwing `setActiveAdmin`
  (`task/SetDevicePolicyTask.java:88-92`, outside any try), for example when
  the receiver is not a device admin: the source then fires no callback,
  where the model promises exactly one. `setDeviceOwner` overwrites the recorded owner, and logging
  is dropped.
- WebActivity.StartsWith: strings are sequences of Unicode characters, where
  Java's `startsWith` compares UTF-16 code units. The two agree on
  well-formed strings; unpaired surrogates are not modelled.
- WebView rendering, TimeLogger, the long-click suppression and the Activity
  lifecycle beyond `onCreate`.
