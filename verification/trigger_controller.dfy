/** The crash trigger: the whole incident run from the sensor payload to the
    hospital arrival, with its two stop-button polling windows. */
module TriggerController {
  import opened Common
  import opened CrashPayload
  import opened CrashDetector
  import opened StateMachine
  import opened CrashTaskManager
  import opened IncidentModel
  import opened BlackBox
  import opened FamilyNotifications
  import opened MasterAgent
  import opened Geofence

  /** Ten polls half a second apart during the consciousness test, thirty
      polls a second apart during transport. */
  const ConsciousnessPolls: nat := 10
  const TransportPolls: nat := 30

  const CancelledMessage: string := "Crash simulation cancelled by stop button"
  const CancelledInTransportMessage: string := "Crash simulation cancelled by stop button during transport"
  const ConsciousnessCancelReason: string := "Cancelled by stop button during consciousness test"
  const DefaultHospitalName: string := "City Trauma Center"
  const ProtocolActive: string := "PROTOCOL_ACTIVE"
  const HospitalArrived: string := "HOSPITAL_ARRIVED"

  /** How a run ends: with a response, with the `CancelledError` a stop-button
      cancel raises, or with the validation error raised while a response or
      the hospital position is built (named by the offending field). */
  datatype TriggerResult =
    | Responded(output: CrashPayloadOutput)
    | Cancelled(message: string)
    | Rejected(error: string)

  /** Everything the controller gets from outside: the generated incident id,
      the clock (as seconds, as ISO text and as a UTC date and time), the readings and coordinates already rendered as text, the
      family contacts, what the services and agents do, and the stop-button
      presses each poll observes. `nameText` is `str()` of a hospital name
      that is not a string. */
  datatype Environment = Environment(
    incidentId: string,
    nowSeconds: nat,
    nowIso: string,
    clock: DateTime,
    readings: ReadingText,
    siteLatText: string,
    siteLonText: string,
    contacts: Contacts,
    crashChannels: ChannelOutcomes,
    swarm: SwarmInputs,
    testPresses: seq<bool>,
    transportPresses: seq<bool>,
    hospitalLatText: string,
    hospitalLonText: string,
    nameText: string,
    arrivalChannels: ChannelOutcomes,
    notifyFault: Option<string>)

  /** What the run did besides its result: the crash alert, the swarm and
      the arrival handoff, each absent when the run ended before it. */
  datatype Trace = Trace(
    crashAlert: Option<NotifyResult>,
    crashRequests: Requests,
    swarm: Option<SwarmResult>,
    handoff: Option<HandoffResult>,
    arrivalRequests: Requests)

  const NoTrace: Trace := Trace(None, NoRequests, None, None, NoRequests)

  /** Poll k finds a stop-button press made since the previous poll. */
  predicate Pressed(presses: seq<bool>, k: int)
  {
    0 <= k < |presses| && presses[k]
  }

  /** One of the first `polls` polls finds a press. */
  predicate AnyPress(presses: seq<bool>, polls: nat)
  {
    exists k :: 0 <= k < polls && Pressed(presses, k)
  }

  /** The record stored for the incident: its id, `payload.dict()` and the
      creation time. */
  function IncidentData(p: CrashPayloadInput, env: Environment): (d: Record)
    ensures "incident_id" in d && d["incident_id"] == Str(env.incidentId)
  {
    map["incident_id" := Str(env.incidentId), "payload" := PayloadValue(p), "created_at" := Str(env.nowIso)]
  }

  /** The four log entries of a fresh machine that stored the payload and
      moved from Idle to Monitoring (which stores the payload again). */
  function OpeningLogs(p: CrashPayloadInput): (logs: seq<LogEntry>)
    ensures |logs| == 4 && logs[0] == InitEntry
    ensures logs[2] == TransitionEntry(Idle, Monitoring, MonitoringReason, Null, true)
  {
    [InitEntry, LogEntry(Idle, PayloadStored(p.gps)),
     TransitionEntry(Idle, Monitoring, MonitoringReason, Null, true),
     LogEntry(Monitoring, PayloadStored(p.gps))]
  }

  /** The PROTOCOL_ACTIVE response built from the swarm result. The schema
      rejects a hospital that is not a dictionary, a dispatch flag that is
      not a boolean and a token that is not a string. */
  function ProtocolOutput(id: string, p: CrashPayloadInput, swarm: SwarmResult, familyNotified: bool, timestamp: string)
    : (r: Outcome<CrashPayloadOutput>)
    ensures var hospital := Get(swarm.dispatcherResult, "hospital", Null);
      var dispatched := Get(swarm.dispatcherResult, "ambulance_dispatched", Bool(false));
      var token := Get(swarm.treasurerResult, "preauth_token", Null);
      && (r.Returned? <==> (hospital.Null? || hospital.Obj?) && dispatched.Bool? && (token.Null? || token.Str?))
      && (r.Returned? ==>
            && r.value.incidentId == id && r.value.status == ProtocolActive && r.value.gps == p.gps
            && r.value.timestamp == timestamp && r.value.familyNotified == familyNotified
            && (r.value.nearestHospital.Some? <==> hospital.Obj?)
            && (hospital.Obj? ==> r.value.nearestHospital.value == hospital.fields)
            && (r.value.ambulanceDispatched <==> dispatched == Bool(true))
            && (r.value.insurancePreauthToken.Some? <==> token.Str?)
            && (token.Str? ==> r.value.insurancePreauthToken.value == token.s))
  {
    var hospital := Get(swarm.dispatcherResult, "hospital", Null);
    var dispatched := Get(swarm.dispatcherResult, "ambulance_dispatched", Bool(false));
    var token := Get(swarm.treasurerResult, "preauth_token", Null);
    if !(hospital.Null? || hospital.Obj?) then Raised("nearest_hospital")
    else if !dispatched.Bool? then Raised("ambulance_dispatched")
    else if !(token.Null? || token.Str?) then Raised("insurance_preauth_token")
    else
      Returned(CrashPayloadOutput(id, ProtocolActive, p.gps, if hospital.Obj? then Some(hospital.fields) else None,
                                  dispatched.b, if token.Str? then Some(token.s) else None, familyNotified, timestamp))
  }

  /** The HOSPITAL_ARRIVED response: the PROTOCOL_ACTIVE one with a new status
      and the arrival's family flag, every other field copied. */
  function ArrivedOutput(out: CrashPayloadOutput, familyNotified: bool): (r: CrashPayloadOutput)
    ensures r.status == HospitalArrived && r.familyNotified == familyNotified
    ensures r.(status := out.status, familyNotified := out.familyNotified) == out
  {
    out.(status := HospitalArrived, familyNotified := familyNotified)
  }

  /** `GPSLocation(lat=…, lon=…)` on two dictionary values. */
  function Coordinates(lat: Value, lon: Value): (r: Outcome<GpsLocation>)
    ensures r.Returned? <==> lat.Num? && ValidLat(lat.r) && lon.Num? && ValidLon(lon.r)
    ensures r.Returned? ==> r.value == GpsLocation(lat.r, lon.r) && ValidGps(r.value)
  {
    if lat.Num? && ValidLat(lat.r) && lon.Num? && ValidLon(lon.r) then Returned(GpsLocation(lat.r, lon.r))
    else Raised("hospital_gps")
  }

  /** The hospital position: the hospital's `gps` entry when the hospital and
      that entry are truthy, each coordinate defaulting to the crash site's;
      otherwise the crash site moved by 0.01 degrees. A `gps` entry that is
      not a dictionary makes `.get` raise. */
  function HospitalPosition(hospital: Option<map<string, Value>>, site: GpsLocation): (r: Outcome<GpsLocation>)
    ensures r.Returned? ==> ValidGps(r.value)
    ensures (hospital.None? || !Truthy(Get(hospital.value, "gps", Null))) ==>
      r == Coordinates(Num(site.lat + 0.01), Num(site.lon + 0.01))
    ensures hospital.Some? && Truthy(Get(hospital.value, "gps", Null)) && !hospital.value["gps"].Obj? ==> r.Raised?
    ensures hospital.Some? && Truthy(Get(hospital.value, "gps", Null)) && hospital.value["gps"].Obj? ==>
      var g := hospital.value["gps"].fields;
      r == Coordinates(Get(g, "lat", Num(site.lat)), Get(g, "lon", Num(site.lon)))
  {
    var gps := if hospital.Some? then Get(hospital.value, "gps", Null) else Null;
    if !Truthy(gps) then Coordinates(Num(site.lat + 0.01), Num(site.lon + 0.01))
    else if !gps.Obj? then Raised("hospital_gps")
    else Coordinates(Get(gps.fields, "lat", Num(site.lat)), Get(gps.fields, "lon", Num(site.lon)))
  }

  /** The hospital name: the hospital's `name` entry when the hospital is
      truthy, "City Trauma Center" when that entry or the hospital is
      missing. */
  function HospitalName(hospital: Option<map<string, Value>>, nameText: string): (name: string)
    ensures (hospital.None? || "name" !in hospital.value) ==> name == DefaultHospitalName
    ensures hospital.Some? && "name" in hospital.value ==>
      name == (if hospital.value["name"].Str? then hospital.value["name"].s else nameText)
  {
    if hospital.Some? && hospital.value != map[] then
      match Get(hospital.value, "name", Str(DefaultHospitalName))
      case Str(s) => s
      case _ => nameText
    else DefaultHospitalName
  }

  /** One polling window: before poll k a press (if any) goes through
      `cancel_crash_simulation`, then the poll reads the flag; the window
      ends at the first raised flag. */
  method PollForCancel(registry: CancelRegistry, id: string, presses: seq<bool>, polls: nat) returns (cancelled: bool)
    requires registry.Valid() && id in registry.flags && !registry.flags[id]
    modifies registry
    ensures registry.Valid() && registry.order == old(registry.order)
    ensures cancelled <==> AnyPress(presses, polls)
    ensures cancelled ==> registry.flags == old(registry.flags)[id := true]
    ensures cancelled && id in old(registry.tasks) ==>
      registry.tasks == old(registry.tasks)[id := RequestCancel(old(registry.tasks)[id])]
    ensures !cancelled ==> registry.flags == old(registry.flags) && registry.tasks == old(registry.tasks)
  {
    var k := 0;
    while k < polls
      invariant 0 <= k <= polls
      invariant registry.Valid() && registry.order == old(registry.order)
      invariant registry.flags == old(registry.flags) && registry.tasks == old(registry.tasks)
      invariant !AnyPress(presses, k)
    {
      if Pressed(presses, k) {
        var _ := registry.Cancel(id);
      }
      if registry.IsCancelled(id) {
        return true;
      }
      k := k + 1;
    }
    return false;
  }

  /** Steps 1 and 2: register the run for cancellation and store the
      incident record. */
  method RegisterRun(p: CrashPayloadInput, env: Environment, store: IncidentStore, registry: CancelRegistry)
    requires store.Valid() && registry.Valid()
    modifies store, registry
    ensures store.Valid() && registry.Valid()
    ensures registry.tasks == old(registry.tasks)[env.incidentId := TaskHandle(false, false)]
    ensures registry.flags == old(registry.flags)[env.incidentId := false]
    ensures store.incidents == old(store.incidents)[env.incidentId := NewRecord(IncidentData(p, env), env.incidentId, env.nowIso)]
  {
    registry.Register(env.incidentId, TaskHandle(false, false));
    var _ := store.NewIncident(IncidentData(p, env), env.nowSeconds, env.nowIso);
  }

  /** Steps 3 and 4: a fresh state machine that stored the payload and
      moved from Idle to Monitoring. */
  method OpenMachine(p: CrashPayloadInput, env: Environment) returns (sm: IncidentState)
    ensures fresh(sm) && sm.Valid()
    ensures sm.incidentId == Some(env.incidentId) && sm.state == Monitoring && sm.logs == OpeningLogs(p)
    ensures sm.payload == Some(p) && sm.createdAt == Some(env.nowSeconds)
    ensures sm.confirmedAt.None? && sm.hospitalGps.None? && sm.metadata == map[]
  {
    sm := new IncidentState(Some(env.incidentId));
    sm.SetPayload(p, env.nowSeconds);
    var _ := sm.StartMonitoring(p, env.nowSeconds);
  }

  /** A polling window that ends the run on a cancel: the run is forgotten
      by the registry as soon as a poll sees its flag raised. */
  method CancelWindow(registry: CancelRegistry, id: string, presses: seq<bool>, polls: nat) returns (cancelled: bool)
    requires registry.Valid() && id in registry.flags && !registry.flags[id]
    modifies registry
    ensures registry.Valid()
    ensures cancelled <==> AnyPress(presses, polls)
    ensures cancelled ==> registry.tasks == old(registry.tasks) - {id} && registry.flags == old(registry.flags) - {id}
    ensures !cancelled ==> registry.flags == old(registry.flags) && registry.tasks == old(registry.tasks)
  {
    ghost var tasks0, flags0 := registry.tasks, registry.flags;
    cancelled := PollForCancel(registry, id, presses, polls);
    if cancelled {
      registry.Unregister(id);
      UpdateThenRemove(flags0, id, true);
      UpdateThenRemove(tasks0, id, RequestCancel(tasks0[id]));
    }
  }

  /** The machine's side of the consciousness test once the polls are over:
      a cancel sends it from TriangulationPending back to Idle, otherwise the
      critical event is confirmed. */
  method EndTest(sm: IncidentState, cancelled: bool, now: int)
    requires sm.Valid() && sm.state == TriangulationPending
    modifies sm
    ensures sm.Valid()
    ensures cancelled ==>
      && sm.state == Idle && sm.confirmedAt == old(sm.confirmedAt)
      && sm.logs == old(sm.logs) + [TransitionEntry(TriangulationPending, Idle, ConsciousnessCancelReason, Null, true)]
    ensures !cancelled ==>
      && sm.state == CriticalConfirmed && sm.confirmedAt == Some(now)
      && sm.logs == old(sm.logs) + [TransitionEntry(TriangulationPending, CriticalConfirmed, ConfirmReason, Null, true)]
    ensures sm.payload == old(sm.payload) && sm.createdAt == old(sm.createdAt) && sm.hospitalGps == old(sm.hospitalGps)
    ensures sm.metadata == old(sm.metadata) && sm.incidentId == old(sm.incidentId)
  {
    if cancelled {
      var _ := sm.CancelIncident(ConsciousnessCancelReason);
    } else {
      var _ := sm.ConfirmCriticalEvent(now);
    }
  }

  /** Steps 6 and 7: the consciousness test. A press seen during its ten
      polls sends the incident back to Idle and forgets the run; otherwise
      the event is confirmed. (The machine and the registry are separate
      objects, so forgetting the run before the machine's cancel, as here,
      has the effect of the source's order.) */
  method ConsciousnessTest(sm: IncidentState, registry: CancelRegistry, id: string, presses: seq<bool>, now: int)
    returns (cancelled: bool)
    requires sm.Valid() && registry.Valid() && sm.state == Monitoring
    requires id in registry.flags && !registry.flags[id]
    modifies sm, registry
    ensures sm.Valid() && registry.Valid()
    ensures cancelled <==> AnyPress(presses, ConsciousnessPolls)
    ensures cancelled ==> registry.tasks == old(registry.tasks) - {id} && registry.flags == old(registry.flags) - {id}
    ensures !cancelled ==> registry.flags == old(registry.flags) && registry.tasks == old(registry.tasks)
    ensures var entered := TransitionEntry(Monitoring, TriangulationPending, TriangulationReason, Null, true);
      && (cancelled ==>
            && sm.state == Idle && sm.confirmedAt == old(sm.confirmedAt)
            && sm.logs == old(sm.logs) + [entered, TransitionEntry(TriangulationPending, Idle, ConsciousnessCancelReason, Null, true)])
      && (!cancelled ==>
            && sm.state == CriticalConfirmed && sm.confirmedAt == Some(now)
            && sm.logs == old(sm.logs) + [entered, TransitionEntry(TriangulationPending, CriticalConfirmed, ConfirmReason, Null, true)])
    ensures sm.payload == old(sm.payload) && sm.createdAt == old(sm.createdAt) && sm.hospitalGps == old(sm.hospitalGps)
    ensures sm.metadata == old(sm.metadata) && sm.incidentId == old(sm.incidentId)
  {
    var _ := sm.StartTriangulation();
    cancelled := CancelWindow(registry, id, presses, ConsciousnessPolls);
    EndTest(sm, cancelled, now);
  }

  /** Steps 11 and 12: the hospital position and name, the handoff, and a
      second stop of the recorder (which the handoff already removed). */
  method Arrive(sm: IncidentState, recorders: BlackBoxRegistry, id: string, out: CrashPayloadOutput, site: GpsLocation,
                env: Environment)
    returns (result: TriggerResult, handoff: Option<HandoffResult>, requests: Requests)
    requires sm.Valid() && recorders.Valid() && sm.state == AgentsRunning
    modifies sm, recorders.Repr
    ensures sm.Valid() && recorders.Valid() && recorders.Repr == old(recorders.Repr)
    ensures HospitalPosition(out.nearestHospital, site).Raised? ==>
      && result == Rejected(HospitalPosition(out.nearestHospital, site).error) && handoff.None? && requests == NoRequests
      && sm.state == old(sm.state) && sm.hospitalGps == old(sm.hospitalGps) && unchanged(recorders.Repr)
    ensures HospitalPosition(out.nearestHospital, site).Returned? ==>
      && sm.state == HospitalMode && sm.hospitalGps == Some(HospitalPosition(out.nearestHospital, site).value)
      && recorders.recorders == old(recorders.recorders) - {id}
      && handoff.Some? && handoff.value.hospitalModeActivated
      && (handoff.value.blackBoxStopped <==> id in old(recorders.recorders) && old(recorders.recorders[id].isRecording))
      && handoff.value.familyNotified == (env.notifyFault.None? && AnySent(env.contacts, env.arrivalChannels))
      && requests == (if env.notifyFault.None?
                      then ArrivalAttempts(env.contacts, id, HospitalName(out.nearestHospital, env.nameText),
                                           env.hospitalLatText, env.hospitalLonText)
                      else NoRequests)
      && result == Responded(ArrivedOutput(out, handoff.value.familyNotified))
    ensures sm.payload == old(sm.payload) && sm.createdAt == old(sm.createdAt) && sm.confirmedAt == old(sm.confirmedAt)
    ensures sm.metadata == old(sm.metadata) && sm.incidentId == old(sm.incidentId)
  {
    handoff := None;
    requests := NoRequests;
    var position := HospitalPosition(out.nearestHospital, site);
    if position.Raised? {
      return Rejected(position.error), handoff, requests;
    }
    var name := HospitalName(out.nearestHospital, env.nameText);
    var r;
    r, requests := HandleHospitalArrival(id, sm, recorders, position.value, name, env.hospitalLatText, env.hospitalLonText,
                                         env.contacts, env.arrivalChannels, env.nowSeconds, env.notifyFault);
    var _ := recorders.StopBlackBoxRecording(id, env.nowSeconds);
    handoff := Some(r);
    result := Responded(ArrivedOutput(out, r.familyNotified));
  }

  /** How a run leaves things: its result, the machine's final state, whether
      its id is still registered for cancellation, and the hospital position
      the machine stores. */
  datatype RunEnd = RunEnd(result: TriggerResult, state: State, registered: bool, hospitalGps: Option<GpsLocation>)

  /** A critical event that passed the consciousness test unanswered. */
  predicate Confirmed(p: CrashPayloadInput, env: Environment)
  {
    Triangulate(p, env.readings).isCritical && !AnyPress(env.testPresses, ConsciousnessPolls)
  }

  /** A confirmed event whose guardian reached its black-box step: the run
      starts a recorder for the incident. */
  predicate GuardianRecorded(p: CrashPayloadInput, env: Environment)
  {
    Confirmed(p, env) && env.swarm.guardianStartsRecording
  }

  /** The run from the transport window on (steps 10 to 12), given the
      PROTOCOL_ACTIVE response `out`. */
  function FromTransport(p: CrashPayloadInput, env: Environment, out: CrashPayloadOutput): RunEnd
  {
    if AnyPress(env.transportPresses, TransportPolls) then RunEnd(Cancelled(CancelledInTransportMessage), AgentsRunning, false, None)
    else
      match HospitalPosition(out.nearestHospital, p.gps)
      case Raised(e) => RunEnd(Rejected(e), AgentsRunning, true, None)
      case Returned(position) =>
        RunEnd(Responded(ArrivedOutput(out, env.notifyFault.None? && AnySent(env.contacts, env.arrivalChannels))),
               HospitalMode, false, Some(position))
  }

  /** The run once the PROTOCOL_ACTIVE response is built or has raised. */
  function FromProtocol(p: CrashPayloadInput, env: Environment, out: Outcome<CrashPayloadOutput>): RunEnd
  {
    match out
    case Raised(e) => RunEnd(Rejected(e), AgentsRunning, true, None)
    case Returned(o) => FromTransport(p, env, o)
  }

  /** The run from the crash alert on (steps 7.5 to 12), for the swarm's
      answer `swarm`. */
  function AfterConfirmation(p: CrashPayloadInput, env: Environment, swarm: SwarmResult): RunEnd
  {
    FromProtocol(p, env, ProtocolOutput(env.incidentId, p, swarm, AnySent(env.contacts, env.crashChannels), env.nowIso))
  }

  /** The whole run: a reading that is not critical is answered at once, a
      press during the consciousness test cancels it, and a confirmed event
      goes on. */
  function Run(p: CrashPayloadInput, env: Environment, swarm: SwarmResult): RunEnd
  {
    var v := Triangulate(p, env.readings);
    if !v.isCritical then RunEnd(Responded(NewOutput(env.incidentId, v.status, p.gps, env.nowIso)), Monitoring, true, None)
    else if AnyPress(env.testPresses, ConsciousnessPolls) then RunEnd(Cancelled(CancelledMessage), Idle, false, None)
    else AfterConfirmation(p, env, swarm)
  }

  /** The guardian's black-box step, when the guardian reaches it: a
      running recorder is started for the incident and stored under its id,
      replacing any recorder stored there before. */
  method GuardianBlackBox(recorders: BlackBoxRegistry, env: Environment)
    requires recorders.Valid() && ValidDateTime(env.clock)
    modifies recorders
    ensures recorders.Valid() && old(recorders.Repr) <= recorders.Repr && fresh(recorders.Repr - old(recorders.Repr))
    ensures env.swarm.guardianStartsRecording ==>
      && env.incidentId in recorders.recorders && fresh(recorders.recorders[env.incidentId])
      && recorders.recorders == old(recorders.recorders)[env.incidentId := recorders.recorders[env.incidentId]]
    ensures !env.swarm.guardianStartsRecording ==> recorders.recorders == old(recorders.recorders)
    ensures recorders.recorders - {env.incidentId} == old(recorders.recorders) - {env.incidentId}
    ensures env.incidentId in recorders.recorders && recorders.recorders[env.incidentId].isRecording
      <==> || env.swarm.guardianStartsRecording
           || (env.incidentId in old(recorders.recorders) && old(recorders.recorders[env.incidentId].isRecording))
  {
    if env.swarm.guardianStartsRecording {
      var _ := recorders.StartBlackBoxRecording(env.incidentId, env.clock, env.nowSeconds);
      assert recorders.recorders - {env.incidentId} == old(recorders.recorders) - {env.incidentId};
    }
  }

  /** Step 8: the agents' swarm on a confirmed event, during which the
      guardian may start the incident's recorder. */
  method Swarm(sm: IncidentState, recorders: BlackBoxRegistry, env: Environment) returns (swarm: SwarmResult)
    requires sm.Valid() && sm.state == CriticalConfirmed && recorders.Valid() && ValidDateTime(env.clock)
    modifies sm, recorders
    ensures sm.Valid() && sm.state == AgentsRunning && SwarmResultFor(env.swarm, swarm)
    ensures recorders.Valid() && old(recorders.Repr) <= recorders.Repr && fresh(recorders.Repr - old(recorders.Repr))
    ensures !env.swarm.guardianStartsRecording ==> recorders.recorders == old(recorders.recorders)
    ensures recorders.recorders - {env.incidentId} == old(recorders.recorders) - {env.incidentId}
    ensures env.incidentId in recorders.recorders && recorders.recorders[env.incidentId].isRecording
      <==> || env.swarm.guardianStartsRecording
           || (env.incidentId in old(recorders.recorders) && old(recorders.recorders[env.incidentId].isRecording))
    ensures sm.metadata == old(sm.metadata)["swarm_result" := SwarmValue(swarm)]
    ensures sm.logs == old(sm.logs) + [TransitionEntry(CriticalConfirmed, AgentsRunning, ActivateReason, Null, true),
                                       LogEntry(AgentsRunning, MetadataUpdated("swarm_result", SwarmValue(swarm)))]
    ensures sm.payload == old(sm.payload) && sm.createdAt == old(sm.createdAt) && sm.confirmedAt == old(sm.confirmedAt)
    ensures sm.hospitalGps == old(sm.hospitalGps) && sm.incidentId == old(sm.incidentId)
  {
    swarm := HandlePhase2(sm, env.swarm);
    GuardianBlackBox(recorders, env);
  }

  /** Steps 7.5 to 9: the crash alert, the swarm and the PROTOCOL_ACTIVE
      response. The guardian's black-box step, when it is reached, stores
      a running recorder under the incident id. */
  method Protocol(sm: IncidentState, recorders: BlackBoxRegistry, p: CrashPayloadInput, env: Environment)
    returns (out: Outcome<CrashPayloadOutput>, trace: Trace)
    requires sm.Valid() && sm.state == CriticalConfirmed && recorders.Valid() && ValidDateTime(env.clock)
    modifies sm, recorders
    ensures sm.Valid() && sm.state == AgentsRunning
    ensures recorders.Valid() && old(recorders.Repr) <= recorders.Repr && fresh(recorders.Repr - old(recorders.Repr))
    ensures !env.swarm.guardianStartsRecording ==> recorders.recorders == old(recorders.recorders)
    ensures recorders.recorders - {env.incidentId} == old(recorders.recorders) - {env.incidentId}
    ensures env.incidentId in recorders.recorders && recorders.recorders[env.incidentId].isRecording
      <==> || env.swarm.guardianStartsRecording
           || (env.incidentId in old(recorders.recorders) && old(recorders.recorders[env.incidentId].isRecording))
    ensures trace.crashAlert.Some? && trace.swarm.Some? && trace.handoff.None? && trace.arrivalRequests == NoRequests
    ensures trace.crashAlert.value.success == AnySent(env.contacts, env.crashChannels)
    ensures trace.crashRequests == CrashAttempts(env.contacts, env.incidentId, env.siteLatText, env.siteLonText, p.bloodType)
    ensures SwarmResultFor(env.swarm, trace.swarm.value)
    ensures out == ProtocolOutput(env.incidentId, p, trace.swarm.value, AnySent(env.contacts, env.crashChannels), env.nowIso)
    ensures sm.metadata == old(sm.metadata)["swarm_result" := SwarmValue(trace.swarm.value)]
    ensures sm.logs == old(sm.logs) + [TransitionEntry(CriticalConfirmed, AgentsRunning, ActivateReason, Null, true),
                                       LogEntry(AgentsRunning, MetadataUpdated("swarm_result", SwarmValue(trace.swarm.value)))]
    ensures sm.payload == old(sm.payload) && sm.createdAt == old(sm.createdAt) && sm.confirmedAt == old(sm.confirmedAt)
    ensures sm.hospitalGps == old(sm.hospitalGps) && sm.incidentId == old(sm.incidentId)
  {
    var alert, requests := NotifyFamilyCrashAlert(env.contacts, env.incidentId, env.siteLatText, env.siteLonText, p.bloodType,
                                                  env.crashChannels);
    var swarm := Swarm(sm, recorders, env);
    trace := Trace(Some(alert), requests, Some(swarm), None, NoRequests);
    out := ProtocolOutput(env.incidentId, p, swarm, alert.success, env.nowIso);
  }

  /** Steps 10 to 12 and the final clean-up: the transport window, the
      arrival and the unregistering of a run that arrived. */
  method TransportAndArrive(sm: IncidentState, registry: CancelRegistry, recorders: BlackBoxRegistry,
                            p: CrashPayloadInput, env: Environment, out: CrashPayloadOutput)
    returns (result: TriggerResult, handoff: Option<HandoffResult>, requests: Requests)
    requires sm.Valid() && registry.Valid() && recorders.Valid() && sm.state == AgentsRunning && sm.hospitalGps.None?
    requires env.incidentId in registry.flags && !registry.flags[env.incidentId]
    modifies sm, registry, recorders.Repr
    ensures sm.Valid() && registry.Valid() && recorders.Valid() && recorders.Repr == old(recorders.Repr)
    ensures var e := FromTransport(p, env, out);
      && result == e.result && sm.state == e.state && sm.hospitalGps == e.hospitalGps
      && (e.registered ==> registry.tasks == old(registry.tasks) && registry.flags == old(registry.flags))
      && (!e.registered ==> registry.tasks == old(registry.tasks) - {env.incidentId} && registry.flags == old(registry.flags) - {env.incidentId})
    ensures handoff.Some? <==> result.Responded?
    ensures handoff.Some? ==> handoff.value.hospitalModeActivated
    ensures handoff.Some? ==>
      && recorders.recorders == old(recorders.recorders) - {env.incidentId}
      && (handoff.value.blackBoxStopped <==>
            env.incidentId in old(recorders.recorders) && old(recorders.recorders[env.incidentId].isRecording))
    ensures handoff.None? ==> unchanged(recorders.Repr)
    ensures requests == if result.Responded? && env.notifyFault.None?
                        then ArrivalAttempts(env.contacts, env.incidentId, HospitalName(out.nearestHospital, env.nameText),
                                             env.hospitalLatText, env.hospitalLonText)
                        else NoRequests
    ensures sm.payload == old(sm.payload) && sm.createdAt == old(sm.createdAt) && sm.confirmedAt == old(sm.confirmedAt)
    ensures sm.metadata == old(sm.metadata) && sm.incidentId == old(sm.incidentId)
  {
    handoff := None;
    requests := NoRequests;
    var cancelled := CancelWindow(registry, env.incidentId, env.transportPresses, TransportPolls);
    if cancelled {
      return Cancelled(CancelledInTransportMessage), handoff, requests;
    }
    result, handoff, requests := Arrive(sm, recorders, env.incidentId, out, p.gps, env);
    if result.Responded? {
      registry.Unregister(env.incidentId);
    }
  }

  /** Steps 10 to 12 once the PROTOCOL_ACTIVE response is settled: a
      response that raised ends the run, one that was built goes on to the
      transport window. */
  method Proceed(sm: IncidentState, registry: CancelRegistry, recorders: BlackBoxRegistry,
                 p: CrashPayloadInput, env: Environment, out: Outcome<CrashPayloadOutput>)
    returns (result: TriggerResult, handoff: Option<HandoffResult>, requests: Requests)
    requires sm.Valid() && registry.Valid() && recorders.Valid() && sm.state == AgentsRunning && sm.hospitalGps.None?
    requires env.incidentId in registry.flags && !registry.flags[env.incidentId]
    modifies sm, registry, recorders.Repr
    ensures sm.Valid() && registry.Valid() && recorders.Valid() && recorders.Repr == old(recorders.Repr)
    ensures var e := FromProtocol(p, env, out);
      && result == e.result && sm.state == e.state && sm.hospitalGps == e.hospitalGps
      && (e.registered ==> registry.tasks == old(registry.tasks) && registry.flags == old(registry.flags))
      && (!e.registered ==> registry.tasks == old(registry.tasks) - {env.incidentId} && registry.flags == old(registry.flags) - {env.incidentId})
    ensures handoff.Some? <==> sm.state == HospitalMode
    ensures handoff.Some? ==>
      && recorders.recorders == old(recorders.recorders) - {env.incidentId}
      && (handoff.value.blackBoxStopped <==>
            env.incidentId in old(recorders.recorders) && old(recorders.recorders[env.incidentId].isRecording))
    ensures handoff.None? ==> unchanged(recorders.Repr) && requests == NoRequests
    ensures sm.payload == old(sm.payload) && sm.createdAt == old(sm.createdAt) && sm.confirmedAt == old(sm.confirmedAt)
    ensures sm.incidentId == old(sm.incidentId)
  {
    handoff := None;
    requests := NoRequests;
    if out.Raised? {
      result := Rejected(out.error);
      return;
    }
    result, handoff, requests := TransportAndArrive(sm, registry, recorders, p, env, out.value);
  }

  /** Steps 7.5 to 12 for a confirmed event, as `AfterConfirmation`
      describes them for the swarm's answer. */
  method AfterTest(sm: IncidentState, registry: CancelRegistry, recorders: BlackBoxRegistry,
                   p: CrashPayloadInput, env: Environment)
    returns (result: TriggerResult, trace: Trace)
    requires sm.Valid() && registry.Valid() && recorders.Valid() && sm.state == CriticalConfirmed && sm.hospitalGps.None?
    requires ValidDateTime(env.clock)
    requires env.incidentId in registry.flags && !registry.flags[env.incidentId]
    modifies sm, registry, recorders.Repr
    ensures sm.Valid() && registry.Valid() && recorders.Valid() && old(recorders.Repr) <= recorders.Repr && fresh(recorders.Repr - old(recorders.Repr))
    ensures trace.swarm.Some? && SwarmResultFor(env.swarm, trace.swarm.value)
    ensures var e := AfterConfirmation(p, env, trace.swarm.value);
      && result == e.result && sm.state == e.state && sm.hospitalGps == e.hospitalGps
      && (e.registered ==> registry.tasks == old(registry.tasks) && registry.flags == old(registry.flags))
      && (!e.registered ==> registry.tasks == old(registry.tasks) - {env.incidentId} && registry.flags == old(registry.flags) - {env.incidentId})
    ensures trace.crashAlert.Some? && trace.crashAlert.value.success == AnySent(env.contacts, env.crashChannels)
    ensures trace.crashRequests == CrashAttempts(env.contacts, env.incidentId, env.siteLatText, env.siteLonText, p.bloodType)
    ensures trace.handoff.Some? <==> sm.state == HospitalMode
    ensures trace.handoff.Some? ==>
      && recorders.recorders == old(recorders.recorders) - {env.incidentId}
      && (trace.handoff.value.blackBoxStopped <==>
            || env.swarm.guardianStartsRecording
            || (env.incidentId in old(recorders.recorders) && old(recorders.recorders[env.incidentId].isRecording)))
    ensures trace.handoff.None? && !env.swarm.guardianStartsRecording ==> recorders.recorders == old(recorders.recorders)
    ensures trace.handoff.None? && env.swarm.guardianStartsRecording ==>
      && env.incidentId in recorders.recorders && recorders.recorders[env.incidentId].isRecording
      && recorders.recorders - {env.incidentId} == old(recorders.recorders) - {env.incidentId}
    ensures sm.payload == old(sm.payload) && sm.createdAt == old(sm.createdAt) && sm.confirmedAt == old(sm.confirmedAt)
    ensures sm.incidentId == old(sm.incidentId)
  {
    var out;
    out, trace := Protocol(sm, recorders, p, env);
    var handoff, requests;
    result, handoff, requests := Proceed(sm, registry, recorders, p, env, out);
    trace := trace.(handoff := handoff, arrivalRequests := requests);
  }

  /** Steps 5 to 12 on an opened incident, as `Run` describes them. */
  method Respond(sm: IncidentState, registry: CancelRegistry, recorders: BlackBoxRegistry,
                 p: CrashPayloadInput, env: Environment)
    returns (result: TriggerResult, trace: Trace)
    requires sm.Valid() && registry.Valid() && recorders.Valid()
    requires sm.state == Monitoring && sm.confirmedAt.None? && sm.hospitalGps.None?
    requires env.incidentId in registry.flags && !registry.flags[env.incidentId] && ValidDateTime(env.clock)
    modifies sm, registry, recorders.Repr
    ensures sm.Valid() && registry.Valid() && recorders.Valid()
    ensures trace.swarm.Some? <==> Confirmed(p, env)
    ensures trace.swarm.Some? ==> SwarmResultFor(env.swarm, trace.swarm.value)
    ensures var e := Run(p, env, if trace.swarm.Some? then trace.swarm.value else InitialResult);
      && result == e.result && sm.state == e.state && sm.hospitalGps == e.hospitalGps
      && (e.registered ==> registry.tasks == old(registry.tasks) && registry.flags == old(registry.flags))
      && (!e.registered ==> registry.tasks == old(registry.tasks) - {env.incidentId} && registry.flags == old(registry.flags) - {env.incidentId})
    ensures trace.crashAlert.Some? <==> Confirmed(p, env)
    ensures sm.confirmedAt.Some? <==> Confirmed(p, env)
    ensures Confirmed(p, env) ==>
      && trace.crashAlert.value.success == AnySent(env.contacts, env.crashChannels)
      && trace.crashRequests == CrashAttempts(env.contacts, env.incidentId, env.siteLatText, env.siteLonText, p.bloodType)
      && sm.confirmedAt == Some(env.nowSeconds)
    ensures trace.handoff.Some? <==> sm.state == HospitalMode
    ensures trace.handoff.Some? ==>
      && recorders.recorders == old(recorders.recorders) - {env.incidentId}
      && (trace.handoff.value.blackBoxStopped <==>
            || env.swarm.guardianStartsRecording
            || (env.incidentId in old(recorders.recorders) && old(recorders.recorders[env.incidentId].isRecording)))
    ensures trace.handoff.None? && !GuardianRecorded(p, env) ==> recorders.recorders == old(recorders.recorders)
    ensures trace.handoff.None? && GuardianRecorded(p, env) ==>
      && env.incidentId in recorders.recorders && recorders.recorders[env.incidentId].isRecording
      && recorders.recorders - {env.incidentId} == old(recorders.recorders) - {env.incidentId}
    ensures sm.payload == old(sm.payload) && sm.createdAt == old(sm.createdAt) && sm.incidentId == old(sm.incidentId)
  {
    trace := NoTrace;
    var v := Triangulate(p, env.readings);
    if !v.isCritical {
      result := Responded(NewOutput(env.incidentId, v.status, p.gps, env.nowIso));
      return;
    }
    var cancelled := ConsciousnessTest(sm, registry, env.incidentId, env.testPresses, env.nowSeconds);
    assert unchanged(recorders.Repr);
    if cancelled {
      result := Cancelled(CancelledMessage);
      return;
    }
    assert Confirmed(p, env);
    result, trace := AfterTest(sm, registry, recorders, p, env);
  }

  /** `handle_crash_trigger`: the whole run against the stores it touches;
      `sm` is the run's state machine. The result, the machine's final
      state, the registration of the run and the stored hospital position
      are those `Run` describes for the swarm's answer; the incident record
      is stored under the run's id, and the registry changes under no other
      id. */
  method HandleCrashTrigger(p: CrashPayloadInput, env: Environment, store: IncidentStore, registry: CancelRegistry,
                            recorders: BlackBoxRegistry)
    returns (result: TriggerResult, sm: IncidentState, trace: Trace)
    requires store.Valid() && registry.Valid() && recorders.Valid() && ValidDateTime(env.clock)
    modifies store, registry, recorders.Repr
    ensures fresh(sm) && sm.Valid() && store.Valid() && registry.Valid() && recorders.Valid()
    ensures store.incidents == old(store.incidents)[env.incidentId := NewRecord(IncidentData(p, env), env.incidentId, env.nowIso)]
    ensures sm.incidentId == Some(env.incidentId) && sm.payload == Some(p) && sm.createdAt == Some(env.nowSeconds)
    ensures trace.swarm.Some? <==> Confirmed(p, env)
    ensures trace.swarm.Some? ==> SwarmResultFor(env.swarm, trace.swarm.value)
    ensures var e := Run(p, env, if trace.swarm.Some? then trace.swarm.value else InitialResult);
      && result == e.result && sm.state == e.state && sm.hospitalGps == e.hospitalGps
      && (e.registered ==> registry.tasks == old(registry.tasks)[env.incidentId := TaskHandle(false, false)]
                           && registry.flags == old(registry.flags)[env.incidentId := false])
      && (!e.registered ==> registry.tasks == old(registry.tasks)[env.incidentId := TaskHandle(false, false)] - {env.incidentId}
                            && registry.flags == old(registry.flags)[env.incidentId := false] - {env.incidentId})
    ensures trace.crashAlert.Some? <==> Confirmed(p, env)
    ensures sm.confirmedAt.Some? <==> Confirmed(p, env)
    ensures Confirmed(p, env) ==>
      && trace.crashAlert.value.success == AnySent(env.contacts, env.crashChannels)
      && trace.crashRequests == CrashAttempts(env.contacts, env.incidentId, env.siteLatText, env.siteLonText, p.bloodType)
      && sm.confirmedAt == Some(env.nowSeconds)
    ensures trace.handoff.Some? <==> sm.state == HospitalMode
    ensures trace.handoff.Some? ==>
      && recorders.recorders == old(recorders.recorders) - {env.incidentId}
      && (trace.handoff.value.blackBoxStopped <==>
            || env.swarm.guardianStartsRecording
            || (env.incidentId in old(recorders.recorders) && old(recorders.recorders[env.incidentId].isRecording)))
    ensures trace.handoff.None? && !GuardianRecorded(p, env) ==> recorders.recorders == old(recorders.recorders)
    ensures trace.handoff.None? && GuardianRecorded(p, env) ==>
      && env.incidentId in recorders.recorders && recorders.recorders[env.incidentId].isRecording
      && recorders.recorders - {env.incidentId} == old(recorders.recorders) - {env.incidentId}
  {
    assert store !in recorders.Repr;
    RegisterRun(p, env, store, registry);
    sm := OpenMachine(p, env);
    assert unchanged(recorders.Repr);
    result, trace := Respond(sm, registry, recorders, p, env);
  }

  /** The status of a verdict that is not critical always starts with
      "MONITOR_MODE", so it is never one of the controller's own statuses. */
  lemma {:induction false} MonitorStatusIsNotProtocolStatus(p: CrashPayloadInput, t: ReadingText)
    requires !Triangulate(p, t).isCritical
    ensures Triangulate(p, t).status != ProtocolActive && Triangulate(p, t).status != HospitalArrived
  {
    var status := Triangulate(p, t).status;
    if p.userConsent {
      assert status == MonitorPrefix + Join(Reasons(FailedChecks(p), t), "; ");
    }
    assert status[0] == 'M';
    assert ProtocolActive[0] == 'P' && HospitalArrived[0] == 'H';
  }

  /** A reading that is not critical is answered at once with the
      detector's status and the schema defaults; the machine stays in
      Monitoring and the run is never unregistered, whatever the stop
      button and the agents do. */
  lemma NotCriticalAnswersAtOnce(p: CrashPayloadInput, env: Environment, swarm: SwarmResult)
    requires !Triangulate(p, env.readings).isCritical
    ensures var e := Run(p, env, swarm);
      && e.result.Responded? && e.result.output.status == Triangulate(p, env.readings).status
      && e.result.output.incidentId == env.incidentId && e.result.output.gps == p.gps
      && !e.result.output.familyNotified && !e.result.output.ambulanceDispatched
      && e.result.output.nearestHospital.None? && e.result.output.insurancePreauthToken.None?
      && e.state == Monitoring && e.registered && e.hospitalGps.None?
  {
  }

  /** A press seen during the consciousness test cancels the run, whatever
      the transport window and the agents would have done. */
  lemma TestPressCancels(p: CrashPayloadInput, env: Environment, swarm: SwarmResult, transport: seq<bool>)
    requires Triangulate(p, env.readings).isCritical && AnyPress(env.testPresses, ConsciousnessPolls)
    ensures Run(p, env, swarm) == Run(p, env.(transportPresses := transport), swarm)
    ensures Run(p, env, swarm) == RunEnd(Cancelled(CancelledMessage), Idle, false, None)
  {
  }

  /** Two press sequences that the first `polls` polls see alike. */
  predicate SamePolls(a: seq<bool>, b: seq<bool>, polls: nat)
  {
    forall k :: 0 <= k < polls ==> Pressed(a, k) == Pressed(b, k)
  }

  lemma {:induction false} SamePollsSamePress(a: seq<bool>, b: seq<bool>, polls: nat)
    requires SamePolls(a, b, polls)
    ensures AnyPress(a, polls) <==> AnyPress(b, polls)
  {
    if AnyPress(a, polls) {
      var k :| 0 <= k < polls && Pressed(a, k);
      assert Pressed(b, k);
    }
    if AnyPress(b, polls) {
      var k :| 0 <= k < polls && Pressed(b, k);
      assert Pressed(a, k);
    }
  }

  /** Only the presses the polls observe matter: presses after the tenth
      test poll or the thirtieth transport poll change nothing. */
  lemma {:induction false} OnlyPolledPressesMatter(p: CrashPayloadInput, env: Environment, test: seq<bool>, transport: seq<bool>,
                                                   swarm: SwarmResult)
    requires SamePolls(env.testPresses, test, ConsciousnessPolls)
    requires SamePolls(env.transportPresses, transport, TransportPolls)
    ensures Run(p, env, swarm) == Run(p, env.(testPresses := test, transportPresses := transport), swarm)
  {
    SamePollsSamePress(env.testPresses, test, ConsciousnessPolls);
    SamePollsSamePress(env.transportPresses, transport, TransportPolls);
  }

  /** A press that arrives only after the tenth poll does not cancel. */
  lemma {:induction false} LatePressIsMissed(p: CrashPayloadInput, env: Environment, swarm: SwarmResult)
    requires Triangulate(p, env.readings).isCritical
    requires env.testPresses == seq(ConsciousnessPolls, k => false) + [true]
    ensures Confirmed(p, env)
    ensures Run(p, env, swarm) == AfterConfirmation(p, env, swarm)
  {
    forall k | 0 <= k < ConsciousnessPolls
      ensures !Pressed(env.testPresses, k)
    {
      assert env.testPresses[k] == false;
    }
  }

  /** The run reaches HospitalMode exactly when the event is confirmed, the
      transport window sees no press, and both the PROTOCOL_ACTIVE response
      and the hospital position can be built; it then answers
      HOSPITAL_ARRIVED and is no longer registered. No run ends in
      Completed, since the incident is never closed. */
  lemma {:induction false} ArrivalIff(p: CrashPayloadInput, env: Environment, swarm: SwarmResult)
    ensures var e := Run(p, env, swarm);
      var out := ProtocolOutput(env.incidentId, p, swarm, AnySent(env.contacts, env.crashChannels), env.nowIso);
      && (e.state == HospitalMode <==>
            && Confirmed(p, env) && !AnyPress(env.transportPresses, TransportPolls)
            && out.Returned? && HospitalPosition(out.value.nearestHospital, p.gps).Returned?)
      && (e.state == HospitalMode <==> e.result.Responded? && e.result.output.status == HospitalArrived)
      && (e.state == HospitalMode ==> !e.registered && e.hospitalGps.Some? && ValidGps(e.hospitalGps.value))
      && e.state != Completed
  {
    if !Triangulate(p, env.readings).isCritical {
      MonitorStatusIsNotProtocolStatus(p, env.readings);
    }
  }

  /** The final response is the PROTOCOL_ACTIVE one with only its status
      and family flag replaced, the flag now coming from the arrival
      notification. */
  lemma ArrivedCopiesProtocolOutput(p: CrashPayloadInput, env: Environment, swarm: SwarmResult)
    requires Run(p, env, swarm).state == HospitalMode
    ensures var out := ProtocolOutput(env.incidentId, p, swarm, AnySent(env.contacts, env.crashChannels), env.nowIso);
      && out.Returned?
      && Run(p, env, swarm).result
         == Responded(out.value.(status := HospitalArrived,
                                 familyNotified := env.notifyFault.None? && AnySent(env.contacts, env.arrivalChannels)))
  {
  }

  /** The run stays registered for cancellation exactly on the paths that
      return without the final clean-up: a reading that is not critical,
      and the two validation errors after confirmation. */
  lemma {:induction false} StillRegisteredIff(p: CrashPayloadInput, env: Environment, swarm: SwarmResult)
    ensures var e := Run(p, env, swarm);
      var out := ProtocolOutput(env.incidentId, p, swarm, AnySent(env.contacts, env.crashChannels), env.nowIso);
      e.registered <==>
        || !Triangulate(p, env.readings).isCritical
        || (Confirmed(p, env) && out.Raised?)
        || (Confirmed(p, env) && out.Returned? && !AnyPress(env.transportPresses, TransportPolls)
            && HospitalPosition(out.value.nearestHospital, p.gps).Raised?)
  {
  }

  /** Without a hospital position from the dispatcher the fallback moves
      the crash site by 0.01 degrees, which fails validation exactly for a
      site within 0.01 degrees of the north pole or of longitude 180. */
  lemma FallbackFailsNearTheEdge(site: GpsLocation)
    requires ValidGps(site)
    ensures HospitalPosition(None, site).Raised? <==> site.lat > 89.99 || site.lon > 179.99
    ensures HospitalPosition(None, site).Raised? ==> HospitalPosition(None, site).error == "hospital_gps"
  {
  }

  /** Without a dispatcher hospital the arrival names "City Trauma Center";
      a hospital with a string name is named by it. */
  lemma HospitalNameDefaults(hospital: map<string, Value>, name: string, nameText: string)
    ensures HospitalName(None, nameText) == DefaultHospitalName
    ensures HospitalName(Some(hospital["name" := Str(name)]), nameText) == name
  {
  }
}
