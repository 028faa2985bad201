# GrowthPush facade: registration gate and request serialisation

This project models the `GrowthPush` singleton of the GrowthPush Android
client library, `src/com/growthpush/GrowthPush.java`. The singleton registers
a device with the GrowthPush service. It holds every event and tag send back
until the registration has a client. It avoids registering again when the
persistent store already has a client for the same application and token.

The model has two layers:

- `Machine` (machine.dfy) is the facade as a state machine over values.
  `State` holds the configuration, the current client, the latch (`resolved`
  means the `CountDownLatch(1)` has been counted down) and the persistent
  store (the cached client, plus the tags keyed by name). It also holds the
  background threads started and not yet finished (`pending`), and the remote
  calls made so far (`calls`). Each public method of the facade is a
  function. Each thread body is a `...Step` function. The scheduler picks a
  task by index and passes in what the remote call returned (an `Outcome`).
- `Facade` (facade.dfy) is the class `GrowthPush`. It has the same state as
  mutable fields, and its methods assign them the way the Java methods do.
  Each method's `ensures` ties `Snapshot()` after the call to the `Machine`
  function applied to the old snapshot, and keeps the invariant `Valid()`.
  Three scenario methods walk through a first launch, a failed create call
  and a relaunch.
- `Properties` (properties.dfy) proves what the facade promises about the
  `Machine` functions. This covers write-once initialisation, the guards, the
  reuse-or-create rule, the gate, the short-circuit in `setTag`, and
  `setDeviceTags`. It also covers whole runs of any sequence of calls and
  thread steps: the invariant holds throughout, the latch never closes again,
  the first configuration stays, and no event or tag is sent without a
  client.
- `Text` (text.dfy) defines the case-insensitive comparison with an ASCII
  fold. Java's `equalsIgnoreCase` folds per character over all of Unicode
  (through `Character.toUpperCase`/`toLowerCase`). Only ASCII letters are
  folded here.
- `Model` (model.dfy) holds the value objects `Client`, `Tag` and
  `Environment`, and `Wrappers` (wrappers.dfy) holds `Option` (a Java
  nullable reference) and `Outcome` (a returned value or the message of a
  `GrowthPushException`).

Java `null` is `None` throughout. The `context` argument is modelled only by
whether it is null (`initialized`). The application id is an unbounded `int`:
the facade only compares it, so the 32-bit width does not matter.

Behaviour of the code worth noting:

- The reuse test counts a null *incoming* registration id as a match. A
  cached client whose stored token is null does not match a non-null id, since
  `registrationId.equals(null)` is false.
- Only `register` and `setDeviceTags` check initialisation. `registerClient`,
  `trackEvent` and `setTag` run before `initialize` too, and then use the
  Java defaults (id 0, null secret and environment).
- `initialize` with a null context assigns the fields but leaves the facade
  uninitialised, so a later `initialize` overwrites them.
- In `setDeviceTags`, a `NullPointerException` thrown by one `setTag` ends the
  method. The tags after it are not attempted.

## Model

| member | source | states |
|---|---|---|
| Facade.GrowthPush.constructor | src/com/growthpush/GrowthPush.java:22-35 | the singleton starts uninitialised, with no client, a shut latch, no threads and no calls, over whatever the store already holds |
| Facade.GrowthPush.Initialize | src/com/growthpush/GrowthPush.java:49-64 | the new state is `Machine.Initialize` of the old: unchanged if the context is already set, otherwise exactly the arguments stored |
| Facade.GrowthPush.InitializeDefaults | src/com/growthpush/GrowthPush.java:41-43 | initialize with production and debug off |
| Facade.GrowthPush.InitializeInEnvironment | src/com/growthpush/GrowthPush.java:45-47 | initialize with debug off |
| Facade.GrowthPush.Register | src/com/growthpush/GrowthPush.java:66-89 | throws IllegalStateException with nothing changed before initialisation; otherwise starts one token-fetch thread |
| Facade.GrowthPush.RegisterClient | src/com/growthpush/GrowthPush.java:91-125 | adopts the cached client and opens the gate when it can be reused, otherwise starts one create thread |
| Facade.GrowthPush.RunFetchToken | src/com/growthpush/GrowthPush.java:71-85 | the register thread: on a token it runs registerClient with it; on failure it ends with nothing else changed |
| Facade.GrowthPush.RunCreateClient | src/com/growthpush/GrowthPush.java:104-123 | makes the create call with the token and current configuration; on success sets, caches and opens; on failure changes nothing else |
| Facade.GrowthPush.ClientRegistrationDone | src/com/growthpush/GrowthPush.java:212-221 | the wait condition `client != null` or latch open; under the invariant exactly "latch open", and then a client held in the store |
| Facade.GrowthPush.TrackEvent | src/com/growthpush/GrowthPush.java:131-152 | starts one event thread and changes nothing else |
| Facade.GrowthPush.TrackEventWithoutValue | src/com/growthpush/GrowthPush.java:127-129 | trackEvent with a null value |
| Facade.GrowthPush.RunSendEvent | src/com/growthpush/GrowthPush.java:133-150 | proceeds exactly when the gate is open, then sends the event with the current client |
| Facade.GrowthPush.SetTag | src/com/growthpush/GrowthPush.java:158-184 | skips an unchanged value ignoring case, throws NullPointerException for a null value against a stored tag, otherwise starts one tag thread |
| Facade.GrowthPush.SetTagWithoutValue | src/com/growthpush/GrowthPush.java:154-156 | setTag with a null value |
| Facade.GrowthPush.RunSendTag | src/com/growthpush/GrowthPush.java:164-182 | proceeds exactly when the gate is open, sends the tag, and on success stores the returned tag |
| Facade.GrowthPush.SetDeviceTags | src/com/growthpush/GrowthPush.java:186-198 | throws IllegalStateException before initialisation; otherwise setTag on the six device properties in order, stopping at an exception |
| Facade.GrowthPush.GetApplicationId | src/com/growthpush/GrowthPush.java:200-202 | returns the configured application id |
| Facade.GrowthPush.GetSecret | src/com/growthpush/GrowthPush.java:204-206 | returns the configured secret |
| Facade.GrowthPush.GetClient | src/com/growthpush/GrowthPush.java:208-210 | the current client is present exactly when the gate is open, and is then the client in the store |
| Facade.FirstLaunchScenario | src/com/growthpush/GrowthPush.java:66-152 | with an empty store, an event tracked before registration is held back and then sent with client 7; the only calls are the create call then the event |
| Facade.FailedRegistrationScenario | src/com/growthpush/GrowthPush.java:104-152 | after a failed create call, an event tracked later is not sent |
| Facade.RelaunchScenario | src/com/growthpush/GrowthPush.java:91-99 | with the same client and token in the store, registration opens the gate with no remote call |
| Machine.Initial | src/com/growthpush/GrowthPush.java:22-31 | the initial state is valid, uninitialised and gate-shut |
| Machine.Remove | src/com/growthpush/GrowthPush.java:133-150 | a finished thread leaves the started ones exactly once (multiset accounting) |
| Machine.CanReuse | src/com/growthpush/GrowthPush.java:93-95 | only a cached client of this application is reused; a null id always matches it; a non-null id matches only its exact token |
| Machine.FetchTag | src/com/growthpush/GrowthPush.java:160 | the stored tag for a name, null when the name has none |
| Machine.DecideTag | src/com/growthpush/GrowthPush.java:160-162 | with no stored tag always send; throw exactly for a null value against a stored tag; skip exactly for a non-null value equal ignoring case to a non-null stored value |
| Text.FoldChar | src/com/growthpush/GrowthPush.java:161 | maps each upper-case ASCII letter to its own lower-case letter (code point + 32) and leaves every other character alone; the result is never upper-case |
| Text.FoldEqual | src/com/growthpush/GrowthPush.java:161 | two characters fold alike exactly when they are equal or are the upper- and lower-case forms of one ASCII letter |
| Text.Lower | src/com/growthpush/GrowthPush.java:161 | folds every character of a string, keeping its length |
| Text.EqualsIgnoreCaseIsLowerEquality | src/com/growthpush/GrowthPush.java:161 | comparing ignoring case is the same as comparing the folded strings |
| Text.EqualsIgnoreCaseIsEquivalence | src/com/growthpush/GrowthPush.java:161 | the comparison is reflexive, symmetric and transitive |
| Properties.InitializeIsWriteOnce | src/com/growthpush/GrowthPush.java:51-57 | once initialised the call changes nothing; before that it stores exactly its arguments and nothing else changes |
| Properties.SecondInitializeChangesNothing | src/com/growthpush/GrowthPush.java:51-57 | after a first initialize with a context, any second initialize changes nothing |
| Properties.NullContextDoesNotLock | src/com/growthpush/GrowthPush.java:51-54 | an initialize with a null context does not stop a later initialize from taking effect |
| Properties.RegisterGuard | src/com/growthpush/GrowthPush.java:66-71 | register throws IllegalStateException with nothing changed when uninitialised, and otherwise starts exactly one thread |
| Properties.SetDeviceTagsGuard | src/com/growthpush/GrowthPush.java:186-189 | setDeviceTags throws IllegalStateException with nothing changed when uninitialised |
| Properties.ReuseBranch | src/com/growthpush/GrowthPush.java:93-99 | on reuse the cached client is current and the gate open, with no thread started, no call made, and store and configuration unchanged |
| Properties.CreateBranch | src/com/growthpush/GrowthPush.java:94-104 | without reuse exactly one create thread is started and nothing else changes; the gate stays as it was |
| Properties.ReuseLaw | src/com/growthpush/GrowthPush.java:93-104 | for a cached client of this application with token T, a null id or T reuses and opens the gate, and any other token starts a create |
| Properties.NoReuseWithoutMatchingCache | src/com/growthpush/GrowthPush.java:94 | an empty cache or a client of another application is never reused |
| Properties.CreateOutcome | src/com/growthpush/GrowthPush.java:109-119 | the create call carries the token and current configuration; success makes the returned client current and cached and opens the gate; failure leaves client, cache and latch unchanged |
| Properties.TokenFailureAbandons | src/com/growthpush/GrowthPush.java:77-81 | a failed token fetch ends the thread and changes nothing else |
| Properties.GateMeansRegistered | src/com/growthpush/GrowthPush.java:212-219 | under the invariant, the gate is open exactly when the latch is, and then the client is present and is the stored one |
| Properties.DependentSendWaitsForGate | src/com/growthpush/GrowthPush.java:138-146 | an event or tag thread changes nothing while the gate is shut; once open it makes exactly one call with the client and retires its task exactly once |
| Properties.FailedCreateKeepsSendsBlocked | src/com/growthpush/GrowthPush.java:117-119 | after a failed create with the gate shut, every event and tag thread stays parked |
| Properties.TrackEventLeavesStoresAlone | src/com/growthpush/GrowthPush.java:131-152 | trackEvent and its thread never touch client, latch, cache, tags or configuration |
| Properties.SetTagShortCircuit | src/com/growthpush/GrowthPush.java:158-166 | an equal value ignoring case returns with nothing changed; a null value against a stored tag throws with nothing changed; an unstored name starts one thread |
| Properties.SetTagIgnoresCaseExample | src/com/growthpush/GrowthPush.java:160-162 | with "OS" stored as "Android", setTag("OS", "android") changes nothing |
| Properties.SkipIsCaseInsensitive | src/com/growthpush/GrowthPush.java:161 | a value equal ignoring case to a skipped value is skipped too |
| Properties.SendTagUpdatesOneEntry | src/com/growthpush/GrowthPush.java:172-177 | a success files the returned tag under its name and leaves every other name alone; a failure leaves the store unchanged; the client and latch are never touched |
| Properties.ConfirmedTagShortCircuits | src/com/growthpush/GrowthPush.java:160-177 | after the server confirms a tag, a later setTag of a value equal to it ignoring case sends nothing |
| Properties.SetTagOfNewName | src/com/growthpush/GrowthPush.java:160-164 | setTag of a name with no stored tag starts its thread, whatever the value |
| Properties.SetTagsOnlySchedules | src/com/growthpush/GrowthPush.java:191-196 | a sequence of setTag calls only appends tag threads and changes nothing else |
| Properties.SetTagsAllNew | src/com/growthpush/GrowthPush.java:191-196 | when no name is stored, each pair gets its thread, in order, and nothing is thrown |
| Properties.DeviceTagsOnFreshStore | src/com/growthpush/GrowthPush.java:191-196 | on an empty store setDeviceTags starts the Device, OS, Language, Time Zone, Version and Build threads in that order |
| Properties.DeviceTagsStopAtNull | src/com/growthpush/GrowthPush.java:191 | a null device value with a stored Device tag throws NullPointerException before any thread is started |
| Properties.ApplyPreserves | src/com/growthpush/GrowthPush.java:49-221 | every call or thread step keeps the invariant and never undoes a configuration, an open latch, a current client or a call made |
| Properties.RunPreserves | src/com/growthpush/GrowthPush.java:49-221 | the same for any sequence of calls and thread steps |
| Properties.ReachableStatesAreValid | src/com/growthpush/GrowthPush.java:22-35 | every run from the singleton's initial state keeps the invariant |

## Left out

- Threads and their scheduling. Each thread is a task, and a step method runs it as one atomic step. In the source, another thread can observe the state between the client assignment on line 110 and `latch.countDown()` on line 116.
- The real blocking of `CountDownLatch.await`. A shut gate appears as a step that changes nothing.
- An `InterruptedException` while waiting: the source swallows it and the thread goes on to send without a client. The model does not include thread interruption.
- The token fetch through `GoogleCloudMessaging.register`. It is external I/O, so its result is a parameter of the register step.
- The HTTP calls `Client.save`, `Event.save` and `Tag.save`. Their sources are not part of this model. Each one's outcome is a parameter, and the request is recorded in `calls`.
- The internals of `Preference`. The store is a cached client and a map from tag name to tag. `saveTag` is assumed to file a tag under its own name.
- `Preference.setContext`, `Logger` and its debug flag (the flag is only stored), the `BASE_URL` constant, and the `GoogleCloudMessaging` instance.
- The values `DeviceUtils` reports. These are the six opaque inputs of `SetDeviceTags`.
- `src/com/growthpush/view/AlertFragment.java`. It is Android UI.
- Text.FoldEqual: only ASCII letters are identified with their other case; Java also pairs non-ASCII letters.
- Text.EqualsIgnoreCaseIsLowerEquality: this compares ignoring ASCII case only. Java's `equalsIgnoreCase` also folds non-ASCII letters.
