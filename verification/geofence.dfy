/** Phase 3, the hospital arrival handoff: switch the incident to
    HospitalMode, stop its black-box recording and send the family the
    arrival update. (The distance computation that decides arrival is not
    part of this model.) */
module Geofence {
  import opened Common
  import opened CrashPayload
  import opened StateMachine
  import opened BlackBox
  import opened FamilyNotifications

  datatype HandoffResult = HandoffResult(
    success: bool,
    hospitalModeActivated: bool,
    blackBoxStopped: bool,
    familyNotified: bool,
    message: string)

  const NoHandoff: HandoffResult := HandoffResult(false, false, false, false, "")
  const HandoffCompleted: string := "Hospital arrival handoff completed"
  const HandoffErrorPrefix: string := "Hospital arrival handoff error: "

  /** The first two steps of the handoff: the switch to HospitalMode and,
      when it succeeds, stopping the incident's recorder. */
  method EnterModeAndStopRecorder(incidentId: string, sm: IncidentState, recorders: BlackBoxRegistry,
                                  gps: GpsLocation, nowSeconds: int)
    returns (entered: bool, stopped: bool)
    requires sm.Valid() && recorders.Valid()
    modifies sm, recorders.Repr
    ensures sm.Valid() && recorders.Valid() && recorders.Repr == old(recorders.Repr)
    ensures entered <==> old(sm.state) == AgentsRunning
    ensures sm.logs == old(sm.logs) + [TransitionEntry(old(sm.state), HospitalMode, HospitalReason,
                                                        Obj(map["hospital_gps" := GpsValue(gps)]), entered)]
    ensures !entered ==>
      && !stopped && sm.state == old(sm.state) && sm.hospitalGps == old(sm.hospitalGps)
      && recorders.recorders == old(recorders.recorders)
    ensures entered ==>
      && sm.state == HospitalMode && sm.hospitalGps == Some(gps)
      && recorders.recorders == old(recorders.recorders) - {incidentId}
      && (stopped <==> incidentId in old(recorders.recorders) && old(recorders.recorders[incidentId].isRecording))
    ensures sm.payload == old(sm.payload) && sm.createdAt == old(sm.createdAt) && sm.confirmedAt == old(sm.confirmedAt)
    ensures sm.metadata == old(sm.metadata) && sm.incidentId == old(sm.incidentId)
  {
    stopped := false;
    entered := sm.EnterHospitalMode(gps);
    if !entered {
      return;
    }
    var summary := recorders.StopBlackBoxRecording(incidentId, nowSeconds);
    stopped := summary.Some? && summary.value.Summary?;
  }

  /** `handle_hospital_arrival`. A failed mode switch returns at once with
      every flag false; otherwise the recorder is stopped and the family is
      notified, and the handoff counts as completed whatever those two
      reported. `notifyFault` is an exception escaping the notification
      step: it spoils `success` but keeps the flags already set. */
  method HandleHospitalArrival(incidentId: string, sm: IncidentState, recorders: BlackBoxRegistry,
                               gps: GpsLocation, hospitalName: string, latText: string, lonText: string,
                               contacts: Contacts, channels: ChannelOutcomes, nowSeconds: int,
                               notifyFault: Option<string>)
    returns (r: HandoffResult, attempts: Requests)
    requires sm.Valid() && recorders.Valid()
    modifies sm, recorders.Repr
    ensures sm.Valid() && recorders.Valid() && recorders.Repr == old(recorders.Repr)
    ensures r.hospitalModeActivated <==> old(sm.state) == AgentsRunning
    ensures sm.logs == old(sm.logs) + [TransitionEntry(old(sm.state), HospitalMode, HospitalReason,
                                                        Obj(map["hospital_gps" := GpsValue(gps)]), r.hospitalModeActivated)]
    ensures !r.hospitalModeActivated ==>
      && r == NoHandoff && attempts == NoRequests
      && sm.state == old(sm.state) && sm.hospitalGps == old(sm.hospitalGps)
      && recorders.recorders == old(recorders.recorders)
    ensures r.hospitalModeActivated ==>
      && sm.state == HospitalMode && sm.hospitalGps == Some(gps)
      && recorders.recorders == old(recorders.recorders) - {incidentId}
      && (r.blackBoxStopped <==> incidentId in old(recorders.recorders) && old(recorders.recorders[incidentId].isRecording))
    ensures r.hospitalModeActivated && notifyFault.None? ==>
      && r.success && r.message == HandoffCompleted
      && r.familyNotified == AnySent(contacts, channels)
      && attempts == ArrivalAttempts(contacts, incidentId, hospitalName, latText, lonText)
    ensures r.hospitalModeActivated && notifyFault.Some? ==>
      && !r.success && !r.familyNotified && attempts == NoRequests
      && r.message == HandoffErrorPrefix + notifyFault.value
    ensures sm.payload == old(sm.payload) && sm.createdAt == old(sm.createdAt) && sm.confirmedAt == old(sm.confirmedAt)
    ensures sm.metadata == old(sm.metadata) && sm.incidentId == old(sm.incidentId)
  {
    r := NoHandoff;
    attempts := NoRequests;
    var entered, stopped := EnterModeAndStopRecorder(incidentId, sm, recorders, gps, nowSeconds);
    if !entered {
      return;
    }
    r := r.(hospitalModeActivated := true, blackBoxStopped := stopped);
    if notifyFault.Some? {
      r := r.(message := HandoffErrorPrefix + notifyFault.value);
      return;
    }
    var notified;
    notified, attempts := NotifyFamilyHospitalArrival(contacts, incidentId, hospitalName, latText, lonText, channels);
    r := r.(familyNotified := notified.success);
    r := r.(success := true, message := HandoffCompleted);
  }
}
