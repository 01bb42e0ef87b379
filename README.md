# LiveLockScreenManagerService, modelled in Dafny

The CyanogenMod live-lock-screen service keeps one current value (a
`LiveLockScreenInfo`, possibly null) and an "enabled" flag mirrored from the
secure settings. Callers post updates that a single worker Handler applies one
at a time. A real change (by structural equality) notifies the change listeners
once. A settings change re-reads the flag and, unless it is self-originated,
notifies the listeners with the current value as callers would read it.

The project has four modules:

- `Types` (types.dfy): null as `Option`, `ComponentName`,
  `LiveLockScreenInfo` (component and priority, compared structurally), and
  the Handler `Message` (its `what` code and its `obj`).
- `Settings` (settings.dfy): reading the enabled setting, and the default
  lookup `getDefaultLiveLockScreenInternal`.
- `ServiceModel` (service_model.dfy): the service state as a value (`ServiceState`: current
  value, flag, log of notified values). Message handling, the queue drained
  first-in first-out (`Process`), the settings observer and startup are
  functions of that state. Lemmas cover de-duplication, "last posted wins", the
  notification log of a drained queue, dropped unknown messages, settings changes
  and startup.
- `Service` (service.dfy): the class `LiveLockScreenManagerService`. Its
  fields are `current`, `enabled`, the Handler's message queue as a `seq`,
  and a ghost log of notifications. Each method is proved to change the object
  exactly as the matching `ServiceModel` function changes a `ServiceState`. The
  `Drain` loop is proved against the fold `Process`. `PostAndDrainScenario`
  is a client that shows the A, B, A case end to end.

Inputs from outside the service are parameters:

- The settings provider's answers: the enabled setting as `Option<int>`, where
  None means missing or not a number, so `getInt` falls back to 0. The default
  component as `Option<string>`.
- `ComponentName.unflattenFromString`: an arbitrary function
  `string -> Option<ComponentName>`.

Two details of the settings path, as the source has them:

- `onChange` assigns `mLiveLockScreenEnabled` itself
  (LiveLockScreenManagerService.java:163); the flag never travels as a queued
  message.
- On every change that is not self-originated, `onChange` notifies with the
  value gated by the new flag (lines 165-167), even when nothing changed. That
  value is null when the feature has just been turned off.

## Model

| member | source | states |
|---|---|---|
| Settings.EnabledFromSetting | src/org/cyanogenmod/livelockscreen/service/LiveLockScreenManagerService.java:163-164 | the flag is true exactly when the setting is present and equals 1; a missing setting counts as 0 |
| Settings.DefaultLiveLockScreen | src/org/cyanogenmod/livelockscreen/service/LiveLockScreenManagerService.java:127-137 | no value exactly when the setting string is null or empty; otherwise an info built from the unflattened component |
| ServiceModel.Visible | src/org/cyanogenmod/livelockscreen/service/LiveLockScreenManagerService.java:83-85 | the read path yields the stored value when enabled and null when disabled |
| ServiceModel.EqualUpdateIsNoop | src/org/cyanogenmod/livelockscreen/service/LiveLockScreenManagerService.java:120-125 | handling an update equal to the stored value leaves the state and the log unchanged |
| ServiceModel.ChangedUpdateNotifiesOnce | src/org/cyanogenmod/livelockscreen/service/LiveLockScreenManagerService.java:121-124 | handling an update with a different value stores it, keeps the flag, and appends exactly one notification carrying it |
| ServiceModel.UnknownMessageSkipped | src/org/cyanogenmod/livelockscreen/service/LiveLockScreenManagerService.java:60-67 | a message with a code other than MSG_UPDATE_CURRENT changes nothing, and processing goes on with the rest of the queue as if it had not been there |
| ServiceModel.ProcessSnoc | src/org/cyanogenmod/livelockscreen/service/LiveLockScreenManagerService.java:59-67 | handling one more message after a drained prefix is the same as draining the longer queue |
| ServiceModel.ProcessSummary | src/org/cyanogenmod/livelockscreen/service/LiveLockScreenManagerService.java:59-67 | draining any queue keeps the flag; the stored value becomes the last update's payload, or stays the same if there was no update; the log gains exactly the adjacent distinct transitions among the update payloads; unknown messages play no part |
| ServiceModel.UpdateValuesOfUpdates | src/org/cyanogenmod/livelockscreen/service/LiveLockScreenManagerService.java:88-91 | the messages posted for a sequence of values carry those values, in posting order |
| ServiceModel.LastPostedWins | src/org/cyanogenmod/livelockscreen/service/LiveLockScreenManagerService.java:120-125 | after draining a non-empty run of posted updates, the stored value is the last one posted |
| ServiceModel.DrainedLog | src/org/cyanogenmod/livelockscreen/service/LiveLockScreenManagerService.java:120-125 | draining posted updates appends one notification per adjacent distinct transition, in order |
| ServiceModel.RepostIsNoop | src/org/cyanogenmod/livelockscreen/service/LiveLockScreenManagerService.java:121-121 | posting the last value again yields the same final state as posting it once |
| ServiceModel.TransitionsNeverRepeat | src/org/cyanogenmod/livelockscreen/service/LiveLockScreenManagerService.java:121-124 | no notification repeats the value stored just before it |
| ServiceModel.TransitionsEmptyIff | src/org/cyanogenmod/livelockscreen/service/LiveLockScreenManagerService.java:121-124 | no notification is sent exactly when every posted value equals the stored one |
| ServiceModel.TransitionsEndAtLast | src/org/cyanogenmod/livelockscreen/service/LiveLockScreenManagerService.java:121-124 | when anything is notified, the last notification carries the last value posted |
| ServiceModel.RepeatedPostNotifiesOnce | src/org/cyanogenmod/livelockscreen/service/LiveLockScreenManagerService.java:120-125 | posting A twice from a state not holding A notifies exactly once, with A |
| ServiceModel.NonAdjacentRepeatsNotify | src/org/cyanogenmod/livelockscreen/service/LiveLockScreenManagerService.java:120-125 | posting A, B, A notifies A, B, A in that order |
| ServiceModel.SettingsChangeEffect | src/org/cyanogenmod/livelockscreen/service/LiveLockScreenManagerService.java:161-172 | onChange sets the flag to (setting == 1), never changes the stored value, appends one notification with the newly gated value when not self-originated, and none otherwise |
| ServiceModel.ExternalChangeRenotifies | src/org/cyanogenmod/livelockscreen/service/LiveLockScreenManagerService.java:165-167 | an external change that alters nothing still notifies the listeners with the current value |
| ServiceModel.StartupIsSilent | src/org/cyanogenmod/livelockscreen/service/LiveLockScreenManagerService.java:103-111 | startup from the constructed state sends no notification, mirrors the enabled setting and stores the default; with no default the read path yields null |
| Service.LiveLockScreenManagerService.constructor | src/org/cyanogenmod/livelockscreen/service/LiveLockScreenManagerService.java:98-100 | a new service holds null, is disabled, has an empty queue and has notified no one |
| Service.LiveLockScreenManagerService.GetCurrentLiveLockScreen | src/org/cyanogenmod/livelockscreen/service/LiveLockScreenManagerService.java:83-85 | returns the stored value when enabled and null when disabled |
| Service.LiveLockScreenManagerService.NotifyChangeListeners | src/org/cyanogenmod/livelockscreen/service/LiveLockScreenManagerService.java:123-123 | records that exactly one notification carrying the given value was sent, and nothing else |
| Service.LiveLockScreenManagerService.GetLiveLockScreenEnabled | src/org/cyanogenmod/livelockscreen/service/LiveLockScreenManagerService.java:93-96 | returns the stored flag |
| Service.LiveLockScreenManagerService.UpdateDefaultLiveLockScreen | src/org/cyanogenmod/livelockscreen/service/LiveLockScreenManagerService.java:87-91 | appends one update message to the end of the queue and changes neither the value, nor the flag, nor the log |
| Service.LiveLockScreenManagerService.HandleUpdateCurrentLiveLockScreen | src/org/cyanogenmod/livelockscreen/service/LiveLockScreenManagerService.java:120-125 | changes the object as UpdateCurrent does (store and notify only on a real change) and leaves the queue alone |
| Service.LiveLockScreenManagerService.HandleMessage | src/org/cyanogenmod/livelockscreen/service/LiveLockScreenManagerService.java:58-68 | changes the object as Handle does: updates applied, other codes dropped |
| Service.LiveLockScreenManagerService.ProcessNext | src/org/cyanogenmod/livelockscreen/service/LiveLockScreenManagerService.java:59-67 | removes the oldest message and handles it |
| Service.LiveLockScreenManagerService.Drain | src/org/cyanogenmod/livelockscreen/service/LiveLockScreenManagerService.java:59-67 | empties the queue, leaving the state that Process gives for the old state and the old queue |
| Service.LiveLockScreenManagerService.OnChange | src/org/cyanogenmod/livelockscreen/service/LiveLockScreenManagerService.java:161-172 | changes the object as SettingsChanged does and leaves the queue alone |
| Service.LiveLockScreenManagerService.Observe | src/org/cyanogenmod/livelockscreen/service/LiveLockScreenManagerService.java:149-155 | runs onChange as a self-originated change, so it sends no notification |
| Service.LiveLockScreenManagerService.OnCreate | src/org/cyanogenmod/livelockscreen/service/LiveLockScreenManagerService.java:102-112 | changes the object as Created does: the flag is read without notifying, then the default is stored |

## Left out

- `enqueueLiveLockScreen` and `cancelLiveLockScreen` only write a log line and have no effect on the state.
- Threads: the HandlerThread, the Looper and visibility across threads. The worker is the queue handled one message at a time by `ProcessNext` / `Drain`.
- The settings observer is registered with the handler, so Android runs `onChange` on the worker thread. The model runs `OnChange` as a direct call between two queue steps.
- Registering and unregistering the ContentObserver, `onDestroy`, and the reads from the settings provider. The setting values are inputs.
- How `notifyChangeListeners` reaches listeners (inherited from BaseLiveLockManagerService, which is not part of this model), and `RemoteException`. Only the values sent are recorded, in a ghost log.
- The insides of `ComponentName.unflattenFromString` (it becomes a function parameter) and of `LiveLockScreenInfo.Builder`. The info is taken to be its component plus a priority that the builder leaves at 0.
- Settings.DefaultLiveLockScreen: assumes `new LiveLockScreenInfo.Builder().setComponent(null).build()` succeeds and gives an info with no component when `unflattenFromString` yields null; the builder is not part of this model, so whether it rejects null is not captured.
- A Message whose `obj` is not a LiveLockScreenInfo (a ClassCastException in Java) cannot be built in the model.
- Logging and the `DEBUG` output.
