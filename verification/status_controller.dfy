/** Read-only views of the incident store: a status summary and the log
    list of one incident. */
module StatusController {
  import opened Common
  import opened IncidentModel

  /** Python's `len` on a stored value: defined for lists, strings and
      dictionaries, a TypeError for anything else. */
  function PyLen(v: Value): (r: Option<nat>)
    ensures v.List? ==> r == Some(|v.items|)
    ensures v.Str? ==> r == Some(|v.s|)
    ensures v.Obj? ==> r == Some(|v.fields|)
    ensures r.None? <==> !(v.List? || v.Str? || v.Obj?)
  {
    match v
    case List(xs) => Some(|xs|)
    case Str(s) => Some(|s|)
    case Obj(m) => Some(|m|)
    case _ => None
  }

  datatype StatusReport =
    | StatusNotFound(incidentId: string, statusText: string, message: string)
    | StatusFound(incidentId: string, state: Value, createdAt: Value, status: Value, logsCount: nat, hasPayload: bool)

  /** `get_incident_status`. A record missing or empty is "not found"; a
      `state_info` that is not a dictionary, or a `logs` value without a
      length, makes the call raise. */
  function GetIncidentStatus(incidents: map<string, Record>, id: string): (r: Outcome<StatusReport>)
    ensures id !in incidents || incidents[id] == map[] ==> r == Returned(StatusNotFound(id, "not_found", "Incident not found"))
    ensures id in incidents && incidents[id] != map[] ==>
      var stateInfo := Get(incidents[id], "state_info", Obj(map[]));
      && (r.Raised? <==> !stateInfo.Obj? || PyLen(Get(incidents[id], "logs", List([]))).None?)
      && (r.Returned? ==> r.value.StatusFound? && r.value.status == Get(stateInfo.fields, "status", Str("active")))
    ensures r.Returned? && r.value.StatusFound? ==>
      && id in incidents
      && r.value.incidentId == id
      && r.value.state == Get(incidents[id], "state", Str("unknown"))
      && r.value.createdAt == Get(incidents[id], "created_at", Null)
      && r.value.hasPayload == ("payload" in incidents[id])
      && PyLen(Get(incidents[id], "logs", List([]))) == Some(r.value.logsCount)
    ensures id in incidents && incidents[id] != map[] && "state_info" !in incidents[id] && "logs" !in incidents[id] ==>
      r.Returned? && r.value.StatusFound? && r.value.status == Str("active") && r.value.logsCount == 0
  {
    var incident := if id in incidents then incidents[id] else map[];
    if incident == map[] then Returned(StatusNotFound(id, "not_found", "Incident not found"))
    else
      var stateInfo := Get(incident, "state_info", Obj(map[]));
      if !stateInfo.Obj? then Raised("AttributeError: object has no attribute 'get'")
      else
        var logsCount := PyLen(Get(incident, "logs", List([])));
        if logsCount.None? then Raised("TypeError: object has no len()")
        else
          Returned(StatusFound(
            id,
            Get(incident, "state", Str("unknown")),
            Get(incident, "created_at", Null),
            Get(stateInfo.fields, "status", Str("active")),
            logsCount.value,
            "payload" in incident))
  }

  datatype LogsReport =
    | LogsNotFound(incidentId: string, noLogs: seq<Value>, message: string)
    | Logs(incidentId: string, logs: Value, totalCount: nat)

  /** `logs[-limit:]` on a stored value: lists and strings can be sliced,
      anything else raises. */
  function SliceTail(v: Value, limit: int): (r: Option<Value>)
    ensures v.List? ==> r == Some(List(PyTail(v.items, limit)))
    ensures v.Str? ==> r == Some(Str(PyTail(v.s, limit)))
    ensures r.None? <==> !(v.List? || v.Str?)
  {
    match v
    case List(xs) => Some(List(PyTail(xs, limit)))
    case Str(s) => Some(Str(PyTail(s, limit)))
    case _ => None
  }

  /** `get_incident_logs`. A truthy limit keeps `logs[-limit:]` (the last
      `limit` entries when it is positive, all but the first `-limit` when
      it is negative), no limit or a zero limit keeps them all; the total
      is the full count. Logs that cannot be sliced or measured raise. */
  function GetIncidentLogs(incidents: map<string, Record>, id: string, limit: Option<int>): (r: Outcome<LogsReport>)
    ensures id !in incidents || incidents[id] == map[] ==> r == Returned(LogsNotFound(id, [], "Incident not found"))
    ensures id in incidents && incidents[id] != map[] ==>
      var stored := Get(incidents[id], "logs", List([]));
      var truthy := limit.Some? && limit.value != 0;
      && (r.Raised? <==> (truthy && SliceTail(stored, limit.value).None?) || PyLen(stored).None?)
      && (r.Returned? ==>
            && r.value.Logs? && r.value.incidentId == id && PyLen(stored) == Some(r.value.totalCount)
            && (truthy ==> Some(r.value.logs) == SliceTail(stored, limit.value))
            && (!truthy ==> r.value.logs == stored))
    ensures id in incidents && incidents[id] != map[] && Get(incidents[id], "logs", List([])).List? ==>
      var all := Get(incidents[id], "logs", List([])).items;
      && r.Returned? && r.value.Logs? && r.value.incidentId == id
      && r.value.totalCount == |all|
      && r.value.logs.List?
      && (limit.None? || limit.value == 0 ==> r.value.logs.items == all)
      && (limit.Some? && limit.value != 0 ==> r.value.logs.items == PyTail(all, limit.value))
      && (limit.Some? && limit.value > 0 ==>
            r.value.logs.items == all[|all| - (if limit.value < |all| then limit.value else |all|)..])
  {
    var incident := if id in incidents then incidents[id] else map[];
    if incident == map[] then Returned(LogsNotFound(id, [], "Incident not found"))
    else
      var stored := Get(incident, "logs", List([]));
      var logs :=
        if limit.Some? && limit.value != 0 then SliceTail(stored, limit.value) else Some(stored);
      if logs.None? then Raised("TypeError: unhashable type: 'slice'")
      else
        var total := PyLen(stored);
        if total.None? then Raised("TypeError: object has no len()")
        else Returned(Logs(id, logs.value, total.value))
  }

  /** A record just created reports its state, no logs and a payload. */
  lemma {:induction false} StatusOfNewRecord(incidents: map<string, Record>, payload: Record, id: string, nowIso: string)
    ensures var r := GetIncidentStatus(incidents[id := NewRecord(payload, id, nowIso)], id);
      && r.Returned? && r.value.StatusFound?
      && r.value.logsCount == 0 && r.value.hasPayload
      && r.value.status == Str("active")
      && r.value.state == (if "state" in payload then payload["state"] else Str("triage"))
  {
    var rec := NewRecord(payload, id, nowIso);
    assert rec != map[] by {
      assert "incident_id" in rec;
    }
    assert "state_info" !in rec by {
      assert "state_info"[5] == '_';
      assert forall k :: k in RecordKeys ==> |k| != 10 || k[5] != '_';
    }
    assert Get(rec, "logs", List([])) == List([]);
  }

  /** After a log line is appended, the total grows by one and a limit of
      one returns exactly that line. */
  lemma {:induction false} LogsAfterAppend(incidents: map<string, Record>, id: string, line: string)
    requires id in incidents && "logs" in incidents[id] && incidents[id]["logs"].List?
    ensures
      var before := incidents[id]["logs"].items;
      var after := incidents[id := incidents[id]["logs" := List(before + [Str(line)])]];
      var r := GetIncidentLogs(after, id, Some(1));
      && r.Returned? && r.value.Logs?
      && r.value.totalCount == |before| + 1
      && r.value.logs == List([Str(line)])
  {
    var before := incidents[id]["logs"].items;
    var rec := incidents[id]["logs" := List(before + [Str(line)])];
    assert "logs" in rec;
    assert rec != map[];
    var all := before + [Str(line)];
    assert all[|all| - 1..] == [Str(line)];
  }
}
