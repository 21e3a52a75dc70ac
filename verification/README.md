# PulseIQ crash response, modelled in Dafny

PulseIQ is a crash-response backend with a small chat server and a
dashboard. A wearable sends a crash payload (g-force, heart rate before
and after, voice level, GPS, blood type, consent). The backend then does
the following:

- It validates the payload against its schema.
- It triangulates the three sensor signals into a critical verdict. All
  of impact, heart-rate change and silence must hold, and only with the
  user's consent.
- It drives each incident through a seven-state lifecycle machine: Idle,
  Monitoring, TriangulationPending, CriticalConfirmed, AgentsRunning,
  HospitalMode, Completed. The machine keeps an append-only log and
  write-once timestamps.
- It gives the user a ten-poll consciousness test in which a stop-button
  press cancels the run.
- After the test it alerts the family and runs the agent swarm: a
  dispatcher, a guardian and a treasurer. The treasurer's result is
  refined with the dispatcher's hospital.
- It waits out a thirty-poll transport window. Then it performs the
  hospital handoff: HospitalMode, stopping the black-box recorder, and
  the family arrival update.

Around this flow sit several keyed stores:

- the cancel registry;
- the in-memory incident store and its read-only status endpoints;
- the insurance pre-authorisation token store;
- the mock policy lookup;
- the black-box recorder with its bounded rolling buffer.

The chat server does the following:

- It refers a message to a doctor by keyword.
- It raises one vitals alert by a fixed priority ladder.
- It hands that alert out once.
- It threads the alert question and a pending appointment through the
  chat turns.

The Twilio voice webhooks escape the spoken message for XML. XML 1.0,
section 4.6 defines the five predefined entities they produce. The
dashboard colours each vital by a threshold table and simulates live
readings with a clamped random drift.

The model has one Dafny module per source file, plus `Common`. `Common`
holds the Python semantics the other modules share:
- `Option`, and `Outcome` (a value or a raised exception);
- a JSON-like `Value` with Python truthiness;
- `dict.get`, the slice `s[-k:]`, `str.lower`, `in` on strings, `str(n)`
  and `strftime` stamps.

Objects whose fields the source updates in place are Dafny classes:
- `IncidentState`;
- the cancel registry;
- the incident and token stores;
- the recorder and its registry;
- the chat server's globals.

Their methods state their whole new state. The orchestration flows are
methods proved against relational specifications:
- `TriggerController.Run` and `RunEnd`;
- `MasterAgent.SwarmResultFor`;
- `FamilyNotifications.Attempts`.

Lemmas then prove the source's promises about those specifications.
Pure logic (the detector, the schema, escaping, colours) is written as
functions and lemmas.

These inputs to the model are parameters:
- clocks;
- uuids and random draws;
- the agents' results;
- e-mail, call and SMS outcomes;
- the Gemini reply;
- presses of the stop button.

## Model

| member | source | states |
|---|---|---|
| StateMachine.Parse | backend/src/agents/core/state_machine.py:23-31 | a string is read back as a state exactly when it is one of the seven state names, and reading it back gives that name |
| StateMachine.ParseName | backend/src/agents/core/state_machine.py:23-31 | every state's name reads back as that state |
| StateMachine.CanTransitionFrom | backend/src/agents/core/state_machine.py:35-43 | the table accepts a target exactly when it names a state that the lifecycle graph reaches in one step from the current state |
| StateMachine.Rank | backend/src/agents/core/state_machine.py:23-31 | the phase number runs from 0 (Idle) to 6 (Completed) |
| StateMachine.StepShape | backend/src/agents/core/state_machine.py:35-43 | no phase is skipped: a step advances one phase, except a cancellation back to Idle from the first two phases and the early close from AgentsRunning |
| StateMachine.StepPreservesConfirmation | backend/src/agents/core/state_machine.py:35-43 | from CriticalConfirmed onward every step moves forward |
| StateMachine.ConfirmedPathsAdvance | backend/src/agents/core/state_machine.py:35-43 | along any valid path, after confirmation the phase grows by at least one per step |
| StateMachine.ConfirmationAtMostOnce | backend/src/agents/core/state_machine.py:35-43 | a path of valid transitions passes through the confirmation step at most once |
| StateMachine.OrEmpty | backend/src/agents/core/state_machine.py:126-130 | the logged transition data is the supplied data when truthy and an empty dictionary otherwise |
| StateMachine.TransitionEntry | backend/src/agents/core/state_machine.py:105-132 | an accepted transition is logged in the new state as a move; a refused one in the old state as an invalid attempt |
| StateMachine.IncidentState.constructor | backend/src/agents/core/state_machine.py:54-71 | a new machine is Idle with no payload, stamps, hospital or metadata, and its log holds only the initialisation entry |
| StateMachine.IncidentState.Log | backend/src/agents/core/state_machine.py:73-87 | one entry stamped with the current state is appended and nothing else changes |
| StateMachine.IncidentState.CanTransition | backend/src/agents/core/state_machine.py:89-103 | the answer is the table lookup for the current state |
| StateMachine.IncidentState.Transition | backend/src/agents/core/state_machine.py:105-132 | the state moves exactly when the table allows it; either way exactly one entry is logged (a move or an invalid attempt) and no other field changes |
| StateMachine.IncidentState.TransitionTo | backend/src/agents/core/state_machine.py:105-132 | a transition called with a state's own name succeeds exactly on a lifecycle edge |
| StateMachine.IncidentState.SetPayload | backend/src/agents/core/state_machine.py:134-144 | the payload is stored, the creation stamp is written only if it was unset, and one entry is logged |
| StateMachine.IncidentState.StartMonitoring | backend/src/agents/core/state_machine.py:146-176 | succeeds exactly from Idle, and then stores the payload after logging the move; from any other state only the refusal is logged |
| StateMachine.IncidentState.StartTriangulation | backend/src/agents/core/state_machine.py:178-206 | succeeds exactly from Monitoring, with the triangulation reason logged |
| StateMachine.IncidentState.ConfirmCriticalEvent | backend/src/agents/core/state_machine.py:208-226 | succeeds exactly from TriangulationPending and only then sets the confirmation stamp |
| StateMachine.IncidentState.CancelIncident | backend/src/agents/core/state_machine.py:228-243 | returns to Idle exactly from Monitoring or TriangulationPending; from any other state nothing changes and nothing is logged |
| StateMachine.IncidentState.ActivateProtocol | backend/src/agents/core/state_machine.py:245-265 | succeeds exactly from CriticalConfirmed |
| StateMachine.IncidentState.EnterHospitalMode | backend/src/agents/core/state_machine.py:267-290 | succeeds exactly from AgentsRunning, and the hospital position is stored only on success |
| StateMachine.IncidentState.CloseIncident | backend/src/agents/core/state_machine.py:292-307 | succeeds exactly from AgentsRunning or HospitalMode |
| StateMachine.IncidentState.GetStatus | backend/src/agents/core/state_machine.py:309-332 | reports the state, stamps and log count; position and blood type appear exactly when a payload is stored |
| StateMachine.IncidentState.GetRecentLogs | backend/src/agents/core/state_machine.py:334-344 | the result is a suffix of the log: the last `limit` entries for a positive limit, the whole log for zero |
| StateMachine.IncidentState.GetAllLogs | backend/src/agents/core/state_machine.py:346-353 | the whole log |
| StateMachine.IncidentState.UpdateMetadata | backend/src/agents/core/state_machine.py:355-364 | one key is set, one entry is logged, the state is unchanged |
| StateMachine.IncidentState.IsTerminal | backend/src/agents/core/state_machine.py:366-373 | true exactly in Completed |
| StateMachine.IncidentState.IsActive | backend/src/agents/core/state_machine.py:375-383 | true exactly outside Idle and Completed |
| StateMachine.TerminalRejectsEverything | backend/src/agents/core/state_machine.py:35-43 | Completed accepts no target at all |
| StateMachine.NoSecondConfirmation | backend/src/agents/core/state_machine.py:35-43 | once confirmed, the machine can never be confirmed again |
| StateMachine.CancelOnlyBeforeConfirmation | backend/src/agents/core/state_machine.py:35-43 | a move back to Idle is allowed exactly from Monitoring and TriangulationPending |
| CrashDetector.CheckImpact | backend/src/agents/core/crash_detector.py:23-39 | an impact exactly when the reading is strictly above 4 G |
| CrashDetector.CheckHeartChange | backend/src/agents/core/crash_detector.py:42-82 | no spike above 140 means no confirmation; after a spike, confirmed exactly when there is no later reading or it is below 50 |
| CrashDetector.CheckSilence | backend/src/agents/core/crash_detector.py:85-104 | silent exactly at 0 dB |
| CrashDetector.DocumentedExamples | backend/src/agents/core/crash_detector.py:34-102 | the docstring examples of the three checks hold |
| CrashDetector.ImpactBoundary | backend/src/agents/core/crash_detector.py:17-39 | exactly 4 G is not an impact; the comparison is strict |
| CrashDetector.AnyVoiceBreaksSilence | backend/src/agents/core/crash_detector.py:85-104 | any positive decibel reading fails the silence test |
| CrashDetector.FailedChecks | backend/src/agents/core/crash_detector.py:171-181 | lists exactly the failed checks, empty exactly when all three pass |
| CrashDetector.Triangulate | backend/src/agents/core/crash_detector.py:107-183 | without consent the verdict is monitor mode; with consent it is critical exactly when all three checks pass, and otherwise the status names each failed check in order, joined by "; " |
| CrashDetector.StatusDeterminesVerdict | backend/src/agents/core/crash_detector.py:107-183 | the status text is CRITICAL_EVENT_CONFIRMED exactly when the verdict is critical |
| CrashDetector.ConsentGatesEverything | backend/src/agents/core/crash_detector.py:139-141 | without consent the readings do not affect the verdict |
| CrashDetector.CriticalExample | backend/src/agents/core/crash_detector.py:125-136 | the documented payload is a critical event |
| CrashDetector.OnlyVoiceFails | backend/src/agents/core/crash_detector.py:173-181 | a reading that fails only the voice test reports exactly the voice reason |
| CrashPayload.BloodTypePatternIsEightStrings | backend/src/schemas/crash_payload.py:54-58 | the blood type pattern accepts exactly the eight strings A+ … O- |
| CrashPayload.ValidIffNothingFails | backend/src/schemas/crash_payload.py:12-68 | a payload is valid exactly when no field constraint fails |
| CrashPayload.Violations | backend/src/schemas/crash_payload.py:12-68 | lists exactly the fields whose constraint fails, empty exactly for a valid payload |
| CrashPayload.ValidateHeartRateAfter | backend/src/schemas/crash_payload.py:70-77 | the validator returns its input unchanged |
| CrashPayload.NoOrderingBetweenHeartRates | backend/src/schemas/crash_payload.py:36-77 | for every valid payload, adding a later heart rate keeps it valid exactly when that rate is in range, higher or lower than the first; the later rate is then the only field that can fail |
| CrashPayload.NewOutput | backend/src/schemas/crash_payload.py:80-123 | a response built from the required fields has no hospital or token and both flags false |
| CrashTaskManager.Remove | backend/src/utils/crash_task_manager.py:83-86 | removing an id keeps every other id, keeps distinctness, and changes nothing for an absent id |
| CrashTaskManager.DistinctLength | backend/src/utils/crash_task_manager.py:90-97 | a list without repeats is as long as its set of ids |
| CrashTaskManager.RaiseFlag | backend/src/utils/crash_task_manager.py:43-44 | only an existing flag is raised; no key is added; other flags keep their value |
| CrashTaskManager.RequestCancel | backend/src/utils/crash_task_manager.py:48-56 | a finished task is left alone; an unfinished one is asked to stop |
| CrashTaskManager.CancelTask | backend/src/utils/crash_task_manager.py:43-57 | only the flagged task with that id is touched |
| CrashTaskManager.RaiseAllEffect | backend/src/utils/crash_task_manager.py:100-112 | cancelling a list of ids raises exactly the listed flags and adds no key |
| CrashTaskManager.CancelAllTasksEffect | backend/src/utils/crash_task_manager.py:100-112 | cancelling distinct ids asks each listed, flagged task to stop once and leaves the rest alone |
| CrashTaskManager.CancelEveryRegisteredId | backend/src/utils/crash_task_manager.py:100-112 | cancelling every registered id raises every flag and asks every unfinished task to stop |
| CrashTaskManager.CancelRegistry.constructor | backend/src/utils/crash_task_manager.py:13-17 | the registry starts empty |
| CrashTaskManager.CancelRegistry.Register | backend/src/utils/crash_task_manager.py:20-30 | the task is stored and its flag reset to false; a new id goes to the end of the key order |
| CrashTaskManager.CancelRegistry.Cancel | backend/src/utils/crash_task_manager.py:33-60 | accepted exactly for an id that has a flag; the flag is raised and an unfinished task asked to stop |
| CrashTaskManager.CancelRegistry.IsCancelled | backend/src/utils/crash_task_manager.py:63-73 | true exactly when the id has a raised flag; false for unknown ids |
| CrashTaskManager.CancelRegistry.Unregister | backend/src/utils/crash_task_manager.py:76-87 | both entries of the id are removed; an unknown id changes nothing |
| CrashTaskManager.CancelRegistry.ActiveIncidentIds | backend/src/utils/crash_task_manager.py:90-97 | every active id exactly once |
| CrashTaskManager.CancelRegistry.CancelAll | backend/src/utils/crash_task_manager.py:100-112 | the count is the number of registered ids, and the new flags and tasks are those of cancelling every id in order |
| CrashTaskManager.RaiseFlagIdempotent | backend/src/utils/crash_task_manager.py:43-44 | pressing cancel twice is the same as pressing it once |
| IncidentModel.NewIncidentId | backend/src/models/incident_model.py:24 | the payload's own id when it has one, otherwise "inc_" and the current whole seconds |
| IncidentModel.NewRecord | backend/src/models/incident_model.py:26-34 | a record has exactly the seven keys; supplied created_at, state and payload win over the defaults (now, "triage", {}); logs, tasks and metadata start empty |
| IncidentModel.IncidentStore.constructor | backend/src/models/incident_model.py:11 | the store starts empty |
| IncidentModel.IncidentStore.NewIncident | backend/src/models/incident_model.py:14-37 | the new record is stored under its id, replacing any earlier one, and returned |
| IncidentModel.IncidentStore.GetIncident | backend/src/models/incident_model.py:40-50 | a record exactly for a stored id |
| IncidentModel.IncidentStore.AddLog | backend/src/models/incident_model.py:53-67 | an unknown id changes nothing; a known one gets exactly one "timestamp &#124; message" line appended, or raises when its logs are not a list |
| IncidentModel.IncidentStore.SetState | backend/src/models/incident_model.py:70-81 | any string is stored as the state of a known id, with no check against the lifecycle; unknown ids change nothing |
| IncidentModel.IncidentStore.UpdateIncident | backend/src/models/incident_model.py:84-100 | succeeds exactly for a stored id, overwriting exactly the given keys |
| IncidentModel.UpdateKeepsOtherKeys | backend/src/models/incident_model.py:99 | an update keeps every key it does not mention |
| StatusController.PyLen | backend/src/controllers/status_controller.py:37 | the length of a list, string or dictionary, and an error for any other value |
| StatusController.GetIncidentStatus | backend/src/controllers/status_controller.py:10-39 | an unknown id or an empty record is "not found"; a record raises exactly when its state_info is not a dictionary or its logs have no length; otherwise it reports the stored status (default "active"), state, creation time, payload presence and log count |
| StatusController.SliceTail | backend/src/controllers/status_controller.py:64-65 | `logs[-limit:]` on a list or string, and an error on anything else |
| StatusController.GetIncidentLogs | backend/src/controllers/status_controller.py:42-71 | an unknown id or an empty record is "not found"; a record raises exactly when its logs have no length or a truthy limit cannot slice them; otherwise the total is the full count, a non-zero limit keeps `logs[-limit:]` (the last entries for a positive limit, all but the first -limit for a negative one), a string is sliced likewise, and no limit or zero keeps them all |
| StatusController.StatusOfNewRecord | backend/src/controllers/status_controller.py:10-39 | a record just created by the store reports its state, zero logs, a payload and status "active" |
| StatusController.LogsAfterAppend | backend/src/controllers/status_controller.py:42-71 | after one log line is appended, the total grows by one and a limit of one returns exactly that line |
| PolicyLookup.MockPolicy | backend/src/agents/insurance/policy_lookup.py:28-43 | a policy exactly for a user id that the table holds, and it is the one stored under that id |
| PolicyLookup.LookupPolicy | backend/src/agents/insurance/policy_lookup.py:46-86 | a known user gets the stored policy; any other user gets a fabricated active policy of their own, from the provider list, numbered "POL-2024-" and the drawn number, with coverage between 300000 and 1500000 and a listed policy type; the result is never absent |
| PolicyLookup.FindByNumber | backend/src/agents/insurance/policy_lookup.py:101-103 | the first policy in table order with that number, or none exactly when no policy has it |
| PolicyLookup.VerifyCoverage | backend/src/agents/insurance/policy_lookup.py:89-106 | a known number is covered exactly when the policy is active and the amount is at most its coverage; an unknown number is always deemed covered |
| PolicyLookup.GetPolicyByNumber | backend/src/agents/insurance/policy_lookup.py:109-123 | a policy exactly for a number in the table, carrying that number |
| PolicyLookup.MockCoverage | backend/src/agents/insurance/policy_lookup.py:28-43 | each mock policy covers exactly up to its stated amount |
| PolicyLookup.FabricatedPolicyIsAlwaysCovered | backend/src/agents/insurance/policy_lookup.py:73-106 | a fabricated policy's number is never in the table, so coverage of any amount under it is accepted |
| PolicyLookup.KnownUsersGetTheirPolicy | backend/src/agents/insurance/policy_lookup.py:65-68 | the two mock users get their stored policies back unchanged |
| PolicyLookup.DigitCount | backend/src/agents/insurance/policy_lookup.py:74 | a number between 10^k and 10^(k+1) is written with k + 1 digits |
| PolicyLookup.FabricatedNumberShape | backend/src/agents/insurance/policy_lookup.py:74 | a fabricated policy number is "POL-2024-" followed by exactly six digits |
| PreauthGenerator.Upper | backend/src/agents/insurance/preauth_generator.py:37 | ASCII `str.upper()`: same length, each character upper-cased |
| PreauthGenerator.MakeToken | backend/src/agents/insurance/preauth_generator.py:36-39 | a token is 23 characters: "PREAUTH_", the eight date digits YYYYMMDD, "_", and six upper-case hexadecimal digits |
| PreauthGenerator.Validate | backend/src/agents/insurance/preauth_generator.py:59-119 | an unknown token is "not found"; a known token is valid exactly when it is not past its expiry and not used; expiry is checked before use, and each case carries its own message |
| PreauthGenerator.MarkUsed | backend/src/agents/insurance/preauth_generator.py:132-133 | only the used flag of a known token changes |
| PreauthGenerator.TokenStore.constructor | backend/src/agents/insurance/preauth_generator.py:13 | the token store starts empty |
| PreauthGenerator.TokenStore.GeneratePreauthToken | backend/src/agents/insurance/preauth_generator.py:16-56 | the token is stored, unused, with an expiry 24 hours after its creation |
| PreauthGenerator.TokenStore.ValidateToken | backend/src/agents/insurance/preauth_generator.py:59-119 | validation against the current store |
| PreauthGenerator.TokenStore.MarkTokenUsed | backend/src/agents/insurance/preauth_generator.py:122-135 | true exactly for a known token, whose used flag is then set; nothing else changes |
| PreauthGenerator.FreshTokenIsValid | backend/src/agents/insurance/preauth_generator.py:42-119 | a fresh token validates for 24 hours after creation and not one second more |
| PreauthGenerator.MarkedTokenIsUsed | backend/src/agents/insurance/preauth_generator.py:101-135 | a marked, unexpired token is reported as already used and invalid; marking twice is marking once |
| PreauthGenerator.ExpiryBeforeUse | backend/src/agents/insurance/preauth_generator.py:90-110 | an expired token reports expiry even when it was also used |
| BlackBox.LastN | backend/src/utils/black_box.py:34 | the newest n elements, as many as there are when fewer |
| BlackBox.RollingAppend | backend/src/utils/black_box.py:94 | `deque.append` with a maximum length: never over capacity, the new element is last, and the result is the newest `cap` elements of the old buffer plus the new one |
| BlackBox.RollingAppendKeepsNewest | backend/src/utils/black_box.py:34-94 | a rolling buffer always holds the newest elements of everything ever appended |
| BlackBox.RunChunks | backend/src/utils/black_box.py:71-102 | one capture run numbers its chunks 0, 1, 2, … |
| BlackBox.RunChunksIndex | backend/src/utils/black_box.py:71-102 | chunk i of a run carries index i |
| BlackBox.WindowStep | backend/src/utils/black_box.py:85-102 | appending the run's next chunk keeps the buffer equal to the newest chunks of all appended, and extends the run by one |
| BlackBox.FullBufferIsNewestOfRun | backend/src/utils/black_box.py:34-102 | once a run has filled the buffer, the buffer holds exactly that run's newest chunks, numbered consecutively up to the latest |
| BlackBox.BlackBoxRecorder.constructor | backend/src/utils/black_box.py:22-38 | a new recorder is idle with an empty buffer, and its id is "recording_", the incident id and the date and time stamp |
| BlackBox.BlackBoxRecorder.StartRecording | backend/src/utils/black_box.py:40-60 | a second start changes nothing and returns the same id; a first start records the start time and begins a new run at chunk 0 |
| BlackBox.BlackBoxRecorder.RecordStep | backend/src/utils/black_box.py:75-103 | a stopped recorder does nothing; at 60 seconds or more it stops itself; otherwise the next chunk enters the rolling buffer |
| BlackBox.BlackBoxRecorder.AppendChunk | backend/src/utils/black_box.py:85-102 | the run's next chunk enters the rolling buffer and the chunk counter advances |
| BlackBox.BlackBoxRecorder.StopRecording | backend/src/utils/black_box.py:105-140 | an idle recorder reports nothing; a recording one stops and reports its id, incident, start, end, duration and the number of chunks held |
| BlackBox.BlackBoxRecorder.GetBuffer | backend/src/utils/black_box.py:142-149 | the buffer is at most its capacity and is the newest chunks ever appended |
| BlackBox.BlackBoxRecorder.GetStatus | backend/src/utils/black_box.py:151-165 | the status reports the recorder's own fields and the buffer size |
| BlackBox.BlackBoxRegistry.constructor | backend/src/utils/black_box.py:169 | no recorder is registered |
| BlackBox.BlackBoxRegistry.StartBlackBoxRecording | backend/src/utils/black_box.py:172-199 | a fresh 60-second recorder is stored under the id, replacing any earlier one, and is recording |
| BlackBox.BlackBoxRegistry.StopBlackBoxRecording | backend/src/utils/black_box.py:202-217 | an unknown id gives nothing and changes nothing; a known recorder is stopped and removed, keeps its buffer, and reports a summary exactly when it was recording, carrying its recording id, incident, start, stop, duration, chunk count and buffer length; no other recorder is touched |
| BlackBox.BlackBoxRegistry.GetRecorder | backend/src/utils/black_box.py:220-230 | a recorder exactly for a registered id |
| Geofence.EnterModeAndStopRecorder | backend/src/utils/geofence.py:111-128 | the recorder is stopped only after a successful switch to HospitalMode, and `stopped` holds exactly when a registered recorder was recording |
| Geofence.HandleHospitalArrival | backend/src/utils/geofence.py:78-155 | a failed mode switch returns at once with every flag false, the recorder untouched and nothing sent; otherwise the handoff completes whatever the recorder and family results were, family_notified is the arrival notification's success, and an exception after the switch spoils success but keeps the flags already set |
| FamilyNotifications.Attempts | backend/src/utils/family_notifications.py:66-111 | the e-mail is attempted exactly when an address is configured, and the call and SMS exactly when a phone number is |
| FamilyNotifications.Notify | backend/src/utils/family_notifications.py:37-120 | every flag starts false; e-mail_sent is the service's own answer, call_made needs a call id or success, sms_sent needs success or a message id; a raise leaves only its own flag false; success is the disjunction of the three flags |
| FamilyNotifications.NotifyFamilyCrashAlert | backend/src/utils/family_notifications.py:14-120 | the crash alert follows that gating and aggregation, with the crash wording and incident information |
| FamilyNotifications.NotifyFamilyHospitalArrival | backend/src/utils/family_notifications.py:123-225 | the arrival update follows the same gating and aggregation, with the arrival wording |
| FamilyNotifications.NothingConfiguredNothingSent | backend/src/utils/family_notifications.py:66-113 | with neither contact configured nothing is attempted and success is false |
| FamilyNotifications.EmailOnly | backend/src/utils/family_notifications.py:66-113 | without a phone number, success rests on the e-mail alone |
| FamilyNotifications.MockRepliesCount | backend/src/utils/family_notifications.py:86-105 | a successful reply with a call id counts as a call, a successful SMS reply counts, and a failed reply without an id does not |
| FamilyNotifications.ArrivalSmsMentions | backend/src/utils/family_notifications.py:207 | the arrival SMS names the hospital right after "Update: User has reached " |
| TriggerController.IncidentData | backend/src/controllers/trigger_controller.py:53-57 | the stored incident data carries the run's own id |
| TriggerController.OpeningLogs | backend/src/controllers/trigger_controller.py:61-65 | an opened incident has four log entries: the initialisation, the payload, the move from Idle to Monitoring and the payload again |
| TriggerController.ProtocolOutput | backend/src/controllers/trigger_controller.py:145-157 | the PROTOCOL_ACTIVE response is built exactly when the hospital, the dispatch flag and the token have the schema's types; it carries the dispatcher's hospital and flag, the treasurer's token and the crash alert's family flag |
| TriggerController.ArrivedOutput | backend/src/controllers/trigger_controller.py:219-228 | the final response is the PROTOCOL_ACTIVE one with status HOSPITAL_ARRIVED and the arrival's family flag, every other field copied |
| TriggerController.Coordinates | backend/src/controllers/trigger_controller.py:182-191 | a hospital position is built exactly from two numbers inside the latitude and longitude ranges |
| TriggerController.HospitalPosition | backend/src/controllers/trigger_controller.py:181-191 | the dispatcher's hospital position, each coordinate defaulting to the crash site's; without one, the crash site moved by 0.01 degrees; any position built is valid |
| TriggerController.HospitalName | backend/src/controllers/trigger_controller.py:193 | the hospital's own name, or "City Trauma Center" when the hospital or its name is missing |
| TriggerController.PollForCancel | backend/src/controllers/trigger_controller.py:109-118 | the window reports a cancel exactly when one of its polls finds a press; only then is the run's flag raised |
| TriggerController.RegisterRun | backend/src/controllers/trigger_controller.py:43-58 | the run is registered with a lowered flag and its incident record stored under its id |
| TriggerController.OpenMachine | backend/src/controllers/trigger_controller.py:61-65 | a fresh machine holds the payload and is in Monitoring, with the four opening log entries |
| TriggerController.CancelWindow | backend/src/controllers/trigger_controller.py:109-117 | a window that sees a press unregisters the run; one that does not leaves the registry unchanged |
| TriggerController.EndTest | backend/src/controllers/trigger_controller.py:115-121 | a cancel sends the machine from TriangulationPending back to Idle; otherwise the event is confirmed and stamped |
| TriggerController.ConsciousnessTest | backend/src/controllers/trigger_controller.py:102-121 | triangulation starts; a press seen in the ten polls returns the machine to Idle and unregisters the run; otherwise the event is confirmed |
| TriggerController.Arrive | backend/src/controllers/trigger_controller.py:181-228 | a hospital position that cannot be built rejects the run with nothing changed; otherwise the handoff moves the machine to HospitalMode, removes the incident's recorder and reports it stopped exactly when one was recording, and the answer is HOSPITAL_ARRIVED with the arrival's family flag |
| TriggerController.Protocol | backend/src/controllers/trigger_controller.py:121-157 | exactly one family crash alert is sent, the swarm runs and is recorded, the machine moves to AgentsRunning, the incident's recorder is running exactly when the guardian started one or one was running already, and the PROTOCOL_ACTIVE response is built from both |
| TriggerController.Swarm | backend/src/agents/core/master_agent.py:160-191 | the swarm moves the machine to AgentsRunning and records its result; the incident's recorder is running afterwards exactly when the guardian started one or one was running already, and no other recorder changes |
| TriggerController.GuardianBlackBox | backend/src/agents/guardian/guardian_agent.py:80-84 | when the guardian reaches its black-box step a fresh running recorder is stored under the incident id and every other recorder stays; otherwise the registry is unchanged |
| TriggerController.TransportAndArrive | backend/src/controllers/trigger_controller.py:167-236 | a press during the thirty transport polls unregisters and aborts with no handoff and the recorders untouched; otherwise the run arrives, is unregistered and removes the incident's recorder |
| TriggerController.Proceed | backend/src/controllers/trigger_controller.py:145-236 | a PROTOCOL_ACTIVE response that raised rejects the run with the run still registered and nothing else changed; a built one goes on to the transport window and the arrival |
| TriggerController.AfterTest | backend/src/controllers/trigger_controller.py:121-236 | a confirmed event ends as the run specification describes, with a handoff exactly when the machine reaches HospitalMode; a handoff removes the incident's recorder and reports it stopped when the guardian started one; without a handoff the guardian's recorder is left running |
| TriggerController.Respond | backend/src/controllers/trigger_controller.py:76-236 | an opened incident ends as the run specification describes; the crash alert, the swarm and the confirmation stamp happen exactly when the event is critical and the test poll sees no press; the recorder registry changes as for AfterTest on a confirmed event and not at all otherwise |
| TriggerController.HandleCrashTrigger | backend/src/controllers/trigger_controller.py:20-236 | the whole run: the incident record is stored, the payload is stored and the machine opened before triangulation, the result, final state, registration and hospital position are those of the run specification, a handoff leaves the registry without the incident's recorder, and a run without one leaves it unchanged or with the guardian's recorder still running |
| TriggerController.MonitorStatusIsNotProtocolStatus | backend/src/controllers/trigger_controller.py:85-96 | a non-critical status is never PROTOCOL_ACTIVE or HOSPITAL_ARRIVED |
| TriggerController.NotCriticalAnswersAtOnce | backend/src/controllers/trigger_controller.py:85-96 | a reading that is not critical is answered at once with the detector's status and the schema defaults; the machine stays in Monitoring and the run stays registered |
| TriggerController.TestPressCancels | backend/src/controllers/trigger_controller.py:109-117 | a press seen during the consciousness test cancels the run back to Idle, whatever happens later |
| TriggerController.SamePollsSamePress | backend/src/controllers/trigger_controller.py:109-110 | press sequences the polls see alike are cancelled alike |
| TriggerController.OnlyPolledPressesMatter | backend/src/controllers/trigger_controller.py:109-175 | presses after the last poll of a window change nothing |
| TriggerController.LatePressIsMissed | backend/src/controllers/trigger_controller.py:109-121 | a press that arrives only after the tenth poll does not stop the confirmation |
| TriggerController.ArrivalIff | backend/src/controllers/trigger_controller.py:102-236 | the run reaches HospitalMode exactly when the event is confirmed, the transport window sees no press, and the response and position can be built; it then answers HOSPITAL_ARRIVED and is unregistered, and no run ends in Completed |
| TriggerController.ArrivedCopiesProtocolOutput | backend/src/controllers/trigger_controller.py:219-228 | the final response differs from the PROTOCOL_ACTIVE one only in its status and its family flag |
| TriggerController.StillRegisteredIff | backend/src/controllers/trigger_controller.py:85-236 | the run stays registered exactly when it returns without the final clean-up: a non-critical reading, or a validation error after confirmation |
| TriggerController.FallbackFailsNearTheEdge | backend/src/controllers/trigger_controller.py:186-191 | the +0.01 fallback position fails validation exactly for a crash site within 0.01 degrees of the north pole or of longitude 180 |
| TriggerController.HospitalNameDefaults | backend/src/controllers/trigger_controller.py:193 | without a hospital the name is "City Trauma Center"; a hospital with a string name is named by it |
| MasterAgent.AgentResult | backend/src/agents/core/master_agent.py:97-107 | an agent's own result is kept; an exception becomes `{"success": False, "error": …}`, which does not count as success |
| MasterAgent.PyAnd | backend/src/agents/core/master_agent.py:132-136 | Python's `and` is truthy exactly when both operands are |
| MasterAgent.AllSuccess | backend/src/agents/core/master_agent.py:132-136 | the overall flag is truthy exactly when all three first-pass results report success |
| MasterAgent.ActivateSwarm | backend/src/agents/core/master_agent.py:19-157 | the result is the one the swarm specification gives for the agents' behaviour: a timeout leaves empty results; otherwise each result or its error dictionary is kept, the treasurer is re-run only after a dispatcher success with a hospital and replaced only by a successful re-run, and a failing re-run becomes a master error |
| MasterAgent.HandlePhase2 | backend/src/agents/core/master_agent.py:160-191 | AgentsRunning is entered only from CriticalConfirmed, the swarm result is always recorded under "swarm_result", and nothing else about the machine changes |
| MasterAgent.SwarmResultIsDetermined | backend/src/agents/core/master_agent.py:19-157 | the swarm result is a function of the agents' behaviour |
| MasterAgent.MessageMatchesSuccess | backend/src/agents/core/master_agent.py:91-155 | the message says all agents succeeded exactly when the overall flag is truthy, and reports a timeout exactly when the swarm timed out |
| MasterAgent.OneFailureKeepsOthers | backend/src/agents/core/master_agent.py:97-111 | a failing agent spoils the overall flag and gets an error dictionary, while the other results are kept |
| MasterAgent.RefinementDoesNotCount | backend/src/agents/core/master_agent.py:113-150 | a failed first treasurer run refined into a success is stored, but the swarm still reports that some agents failed |
| ChatTriage.FirstMatching | server.py:38-40 | the position found is the first doctor whose keywords match the message, or the end of the list when none does |
| ChatTriage.PickDoctor | server.py:27-41 | the doctor picked is on the list, is the first in list order with a keyword in the lower-cased message, and is the general physician exactly when no doctor's keyword occurs |
| ChatTriage.SugarGoesToEndocrinologist | server.py:27-41 | a message mentioning "sugar" anywhere goes to the endocrinologist, whatever else it says |
| ChatTriage.NoKeywordGoesToGeneralPhysician | server.py:33-41 | a message that contains no keyword goes to the general physician |
| ChatTriage.LowerKeepsLowercase | server.py:37 | lower-casing leaves text without capital letters unchanged |
| ChatTriage.Classify | server.py:82-120 | the alert chosen is one whose condition holds on the readings |
| ChatTriage.ClassifyIsHighestPriority | server.py:92-120 | the alert chosen is the highest-priority condition that holds (oxygen, then glucose, then pressure, then heart rate), and no alert is raised exactly when no condition holds |
| ChatTriage.ZeroIsMissing | server.py:93-116 | a zero reading raises the same alert as a missing one |
| ChatTriage.PressureNeedsBoth | server.py:107-113 | without a diastolic reading no blood-pressure alert is raised, however extreme the systolic |
| ChatTriage.AlertMessage | server.py:94-117 | every alert message is a question to the patient |
| ChatTriage.AlertFor | server.py:82-120 | an alert is stored exactly when some condition holds, and it is never empty |
| ChatTriage.LeadingSpaces | server.py:183 | the count of leading whitespace stops at the first non-space |
| ChatTriage.TextEnd | server.py:183 | the text end is placed after the last non-space, with only whitespace after it |
| ChatTriage.Strip | server.py:183 | stripping never lengthens the message |
| ChatTriage.StripKeepsInnerPart | server.py:183 | the stripped message starts and ends with a non-space and is a part of the message with only whitespace before and after it |
| ChatTriage.ChatServer.constructor | server.py:16-22 | the server starts with no alert, no alert question, no pending appointment and no PDF |
| ChatTriage.ChatServer.CheckVitalAlert | server.py:82-120 | every vitals update replaces the stored alert by the one the readings raise, or by nothing, and touches no other state |
| ChatTriage.ChatServer.CheckAlert | server.py:122-131 | a pending alert is handed out once, becomes the question the next chat turn answers and is cleared; with none pending nothing changes |
| ChatTriage.ChatServer.ChatWithAi | server.py:171-234 | a pending appointment is completed with the stripped message as the time; otherwise an explicit booking phrase picks a doctor who then waits for a time; otherwise the model is asked with the vitals, the pending alert question (consumed once) and the message, and its failure becomes the apology |
| ChatTriage.ChatServer.CompleteBooking | server.py:180-189 | the booking reply names the waiting doctor and the stripped time, and the pending appointment is cleared |
| ChatTriage.ChatServer.StartBooking | server.py:191-199 | the doctor picked for the message is suggested and left waiting for a time |
| ChatTriage.ChatServer.AskModel | server.py:210-234 | the prompt carries the PDF only for a report question while one is on file, the alert question is used once and cleared, and the reply is the model's or the apology |
| ChatTriage.PromptCarriesQuestion | server.py:216-224 | the prompt quotes the pending alert question right after its introduction, has no alert lines when none is pending, and always ends with the patient's message |
| TwilioRoutes.ReplaceChar | backend/src/routes/twilio_routes.py:44-48 | replacing a character absent from the text leaves it unchanged |
| TwilioRoutes.EscapeChar | backend/src/routes/twilio_routes.py:42-49 | an ordinary character stands for itself and a special one becomes an entity starting with `&` and ending with `;` |
| TwilioRoutes.EscapeXmlChar | backend/src/routes/twilio_routes.py:42-49 | on one character the chain of five replacements gives that character's entity |
| TwilioRoutes.EscapeXmlAppend | backend/src/routes/twilio_routes.py:42-49 | the chain of replacements escapes a concatenation piece by piece |
| TwilioRoutes.EscapeXmlIsEscapeEach | backend/src/routes/twilio_routes.py:42-49 | the chain of five replacements equals the single-pass, character-by-character escaping |
| TwilioRoutes.PlainMessageUnchanged | backend/src/routes/twilio_routes.py:42-49 | a message without special characters is spoken unchanged |
| TwilioRoutes.NoRawMarkup | backend/src/routes/twilio_routes.py:42-57 | the escaped text holds no raw `<`, `>`, `"` or `'`, so it cannot end the `<Say>` element early |
| TwilioRoutes.EveryAmpersandStartsAnEntity | backend/src/routes/twilio_routes.py:42-49 | every `&` of the escaped text begins one of the five entities |
| TwilioRoutes.UnescapeEscape | backend/src/routes/twilio_routes.py:42-49 | decoding the entities of the escaped text gives back the original message |
| TwilioRoutes.WrongOrderEscapesTwice | backend/src/routes/twilio_routes.py:44-45 | escaping `&` first matters: doing `<` first would turn `<` into `&amp;lt;`, while the shipped order gives `&lt;` |
| TwilioRoutes.MessageOrDefault | backend/src/routes/twilio_routes.py:37-39 | an empty message becomes the default emergency message, and any other is kept |
| TwilioRoutes.VoicePost | backend/src/routes/twilio_routes.py:16-59 | the form's "Message" field is spoken when non-empty, else the query's "message" parameter, else the default |
| TwilioRoutes.VoiceGet | backend/src/routes/twilio_routes.py:62-93 | the query parameter is spoken when given, else the default |
| TwilioRoutes.TwimlShape | backend/src/routes/twilio_routes.py:51-57 | the body is the fixed prefix, an escaped text that decodes to the spoken message and holds no `<`, and the fixed suffix |
| TwilioRoutes.HandlersAgree | backend/src/routes/twilio_routes.py:16-93 | the POST and GET handlers produce the same body for the same message, and an empty form field falls back to the query |
| Vitals.GetColor | Frontend/PulseIq/src/components/VitalStatCard.jsx:5-13 | red exactly on the danger range, orange exactly on the warning range outside danger, green otherwise |
| Vitals.TableIsWellFormed | Frontend/PulseIq/src/components/VitalsThresholds.js:1-36 | every row of the threshold table is two non-empty, disjoint ranges that meet with no whole number between them |
| Vitals.OrangeIffWarning | Frontend/PulseIq/src/components/VitalStatCard.jsx:5-13 | for disjoint ranges the order of the checks does not matter: orange exactly on warning, red exactly on danger |
| Vitals.NoGreenGap | Frontend/PulseIq/src/components/VitalsThresholds.js:1-36 | a whole-number reading between the lower range's start and the upper range's end is never shown green |
| Vitals.ColourExamples | Frontend/PulseIq/src/components/VitalsThresholds.js:2-30 | sample readings against the shipped table: 185 glucose is red, 180.5 is green, spo2 95 orange, 97 green, 92 red |
| Vitals.Change | Frontend/PulseIq/src/components/useLiveVitals.js:16 | the random change lies between -step and step - 1, and is zero for a zero step |
| Vitals.Fluctuate | Frontend/PulseIq/src/components/useLiveVitals.js:15-19 | the new reading is the moved reading clamped into [min, max] |
| Vitals.FluctuateMovesLittle | Frontend/PulseIq/src/components/useLiveVitals.js:15-19 | a reading already in range moves by at most the step |
| Vitals.Tick | Frontend/PulseIq/src/components/useLiveVitals.js:23-32 | every reading after a tick lies within its own bounds |
| Vitals.SimulationStaysInBounds | Frontend/PulseIq/src/components/useLiveVitals.js:5-32 | the simulated readings start inside their bounds and never leave them, however the random draws fall |
| Common.Get | backend/src/agents/core/master_agent.py:132-136 | a dictionary lookup with a default gives the stored value when the key is present and the default otherwise |
| Common.PyTail | backend/src/agents/core/state_machine.py:344 | a negative-index slice is a suffix of the list, the whole list for a zero count |
| Common.Lower | server.py:37 | lower-casing keeps the length and maps each character on its own |
| Common.ContainsIffOccurs | server.py:39 | the substring test holds exactly when the keyword occurs at some position |
| Common.NatToString | backend/src/models/incident_model.py:24 | a number's decimal text is non-empty digits without a leading zero, one digit exactly below ten, and its digits denote the number |
| Common.ZeroPad | backend/src/utils/black_box.py:33 | a zero-padded field is at least as wide as asked and exactly that wide when the number fits, all digits, and still denotes the number |
| Common.CompactDate | backend/src/agents/insurance/preauth_generator.py:36 | the date stamp is eight digits: four that denote the year, then two for the month and two for the day |
| Common.CompactTime | backend/src/utils/black_box.py:33 | the time stamp is six digits: two each denoting the hour, the minute and the second |
| CrashPayload.PayloadValue | backend/src/controllers/trigger_controller.py:55 | the dumped payload has exactly the eight schema field names, with the coordinates as a nested dictionary and blood type and consent carried over |

## Left out

- `urllib.parse.unquote` in both voice handlers is not modelled. The message is taken as already decoded.
- Python's float-to-text rendering is not modelled. The texts a reading, a coordinate or a heart rate is shown as in status strings, alert messages and SMS bodies are supplied with the number.
- Pydantic's lax coercion is not modelled. `CrashPayload.Violations` checks typed fields only, so a string that pydantic would coerce to a number is not modelled.
- Clocks, `uuid4` and `random` are inputs. This covers the incident id, the token's random part, the fabricated policy's number, provider and coverage, the recording id's timestamp, and mock call and SMS ids.
- Log entries in `IncidentState`, the incident store and the recorder carry no timestamps.
- Concurrency is left out:
  - `asyncio.gather`, `wait_for` and every `asyncio.sleep`. The swarm timeout is the flag `SwarmInputs.timedOut`.
  - `task.cancel()` interrupting a sleep. A stop-button press is a `Cancel` on the registry before the poll that reads the flag (`TriggerController.PollForCancel`). The `CancelledError` raised into the coroutine is not modelled.
- BlackBox.RecordStep: the timed `_record_loop` is modelled one iteration per call; the elapsed time is its parameter, so the 0.1-second sleep and the clock are not modelled (the 60-second auto-stop is). `start_black_box_recording` schedules the recorder's start as a task; here it starts at once.
- The Haversine distance functions and `check_hospital_arrival` are not part of this model. Neither is `hospital_handler.py`, whose check for a state "dispatching" the state machine never reaches.
- TriggerController.HospitalPosition: the `+0.01` fallback is exact real arithmetic. Float rounding of the shifted coordinates is not modelled.
- The agents' internals (dispatcher, guardian, treasurer) are inputs. So are the Gemini client, SMTP/SendGrid, the Google Maps client and the Twilio REST client. Only their results or raised exceptions are modelled. The one side effect of an agent that the rest of the run sees, the guardian starting the incident's recorder, is the flag `SwarmInputs.guardianStartsRecording`. The flag is independent of the guardian's outcome, because the guardian can raise after the recorder has started; the recorder then stays registered. The recorder is registered after the swarm's state changes, since nothing in the run observes the order of the two.
- `execution_time_seconds` of the swarm result and all logger output are not modelled.
- The file I/O of `log_activity` and `update_vitals` in the chat server is not modelled. The uploaded PDF object is a flag saying whether a report is on file. `upload_pdf` itself is not modelled.
- The `temperature` reading that `check_vital_alert` reads but never uses is not modelled. Non-numeric vitals, which would raise `TypeError` in the comparisons, are not modelled either.
- `str.lower` and `str.strip` are modelled on ASCII only. `str.strip` strips ASCII whitespace.
- The interval timer and the `fetch` call of the live-vitals hook are not modelled. `Math.random()` is the draw `r` in [0, 1).
- The copy of the XML escaping at `backend/src/agents/tools/twilio_service.py:47` has the same five replacements in the same order. It is not modelled separately.
- `start_triage` and `start_cancel_window` in the state machine are aliases for the same transitions as `StartMonitoring` and `StartTriangulation`. They are not separate members.
- IncidentModel.IncidentStore.NewIncident requires a payload `incident_id`, when present, to be a string. Python would also accept other hashable values as a dictionary key.
- PolicyLookup.FindByNumber: the `for` loop with an early return over the mock policies is written as a recursive search. It finds the same first match.
- HTTP plumbing is not modelled: routers, CORS, and status codes other than the payload each handler returns.
