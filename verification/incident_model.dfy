/** The in-memory incident store: records are dictionaries keyed by
    incident id, created whole and then updated key by key. */
module IncidentModel {
  import opened Common

  type Record = map<string, Value>

  /** The seven keys every record is created with. */
  const RecordKeys: set<string> := {"incident_id", "created_at", "state", "payload", "logs", "tasks", "metadata"}

  /** The id a new record is stored under: the payload's own
      `incident_id`, or "inc_" followed by the current time in whole seconds. */
  function NewIncidentId(payload: Record, nowSeconds: nat): (id: string)
    requires "incident_id" in payload ==> payload["incident_id"].Str?
    ensures "incident_id" in payload ==> id == payload["incident_id"].s
    ensures "incident_id" !in payload ==> id == "inc_" + NatToString(nowSeconds)
  {
    if "incident_id" in payload then payload["incident_id"].s else "inc_" + NatToString(nowSeconds)
  }

  /** The record `new_incident` builds: supplied values where present,
      otherwise the current time, state "triage" and an empty payload; the
      logs, tasks and metadata always start empty. */
  function NewRecord(payload: Record, id: string, nowIso: string): (r: Record)
    ensures r.Keys == RecordKeys
    ensures r["incident_id"] == Str(id)
    ensures r["created_at"] == (if "created_at" in payload then payload["created_at"] else Str(nowIso))
    ensures r["state"] == (if "state" in payload then payload["state"] else Str("triage"))
    ensures r["payload"] == (if "payload" in payload then payload["payload"] else Obj(map[]))
    ensures r["logs"] == List([]) && r["tasks"] == Obj(map[]) && r["metadata"] == Obj(map[])
  {
    map[
      "incident_id" := Str(id),
      "created_at" := Get(payload, "created_at", Str(nowIso)),
      "state" := Get(payload, "state", Str("triage")),
      "payload" := Get(payload, "payload", Obj(map[])),
      "logs" := List([]),
      "tasks" := Obj(map[]),
      "metadata" := Obj(map[])
    ]
  }

  /** The text of one log line: the timestamp, a bar, the message. */
  function LogLine(timestamp: string, message: string): string
  {
    timestamp + " | " + message
  }

  class IncidentStore {
    var incidents: map<string, Record>

    /** No key is ever removed from a record, so every stored record keeps
        the keys it was created with (and is therefore never empty). */
    ghost predicate Valid()
      reads this
    {
      forall id :: id in incidents ==> RecordKeys <= incidents[id].Keys
    }

    constructor ()
      ensures Valid() && incidents == map[]
    {
      incidents := map[];
    }

    /** `new_incident`: build a record and store it, replacing any record
        with the same id. */
    method NewIncident(payload: Record, nowSeconds: nat, nowIso: string) returns (r: Record)
      requires Valid()
      requires "incident_id" in payload ==> payload["incident_id"].Str?
      modifies this
      ensures Valid()
      ensures r == NewRecord(payload, NewIncidentId(payload, nowSeconds), nowIso)
      ensures incidents == old(incidents)[NewIncidentId(payload, nowSeconds) := r]
    {
      var id := NewIncidentId(payload, nowSeconds);
      r := NewRecord(payload, id, nowIso);
      incidents := incidents[id := r];
    }

    /** `get_incident`: the stored record, if any. */
    function GetIncident(id: string): (r: Option<Record>)
      reads this
      ensures r.Some? <==> id in incidents
      ensures r.Some? ==> r.value == incidents[id]
    {
      if id in incidents then Some(incidents[id]) else None
    }

    /** `add_log`: append one line to the record's log list. Nothing happens
        for an unknown id; a `logs` value that is not a list (which
        `update_incident` could have stored) makes the append raise. */
    method AddLog(id: string, message: string, timestamp: string) returns (error: Option<string>)
      requires Valid()
      modifies this
      ensures Valid()
      ensures id !in old(incidents) ==> error.None? && incidents == old(incidents)
      ensures id in old(incidents) && !old(incidents)[id]["logs"].List? ==> error.Some? && incidents == old(incidents)
      ensures id in old(incidents) && old(incidents)[id]["logs"].List? ==>
        error.None? &&
        incidents == old(incidents)[id := old(incidents)[id]["logs" := List(old(incidents)[id]["logs"].items + [Str(LogLine(timestamp, message))])]]
    {
      var inc := GetIncident(id);
      if inc.None? || inc.value == map[] {
        return None;
      }
      var logs := inc.value["logs"];
      if !logs.List? {
        return Some("AttributeError: object has no attribute 'append'");
      }
      incidents := incidents[id := inc.value["logs" := List(logs.items + [Str(LogLine(timestamp, message))])]];
      return None;
    }

    /** `set_state`: store any string as the state, with no check. */
    method SetState(id: string, state: string)
      requires Valid()
      modifies this
      ensures Valid()
      ensures id !in old(incidents) ==> incidents == old(incidents)
      ensures id in old(incidents) ==> incidents == old(incidents)[id := old(incidents)[id]["state" := Str(state)]]
    {
      var inc := GetIncident(id);
      if inc.None? || inc.value == map[] {
        return;
      }
      incidents := incidents[id := inc.value["state" := Str(state)]];
    }

    /** `update_incident`: overwrite exactly the given keys. */
    method UpdateIncident(id: string, updates: Record) returns (ok: bool)
      requires Valid()
      modifies this
      ensures Valid()
      ensures ok <==> id in old(incidents)
      ensures !ok ==> incidents == old(incidents)
      ensures ok ==> incidents == old(incidents)[id := old(incidents)[id] + updates]
    {
      var inc := GetIncident(id);
      if inc.None? || inc.value == map[] {
        return false;
      }
      incidents := incidents[id := inc.value + updates];
      return true;
    }
  }

  /** An update changes the given keys and keeps every other key. */
  lemma UpdateKeepsOtherKeys(r: Record, updates: Record, k: string)
    requires k in r && k !in updates
    ensures k in r + updates && (r + updates)[k] == r[k]
  {
  }
}
