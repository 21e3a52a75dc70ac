/** The incident lifecycle: seven named states, a fixed transition table, an
    append-only action log and write-once timestamps. */
module StateMachine {
  import opened Common
  import opened CrashPayload

  datatype State = Idle | Monitoring | TriangulationPending | CriticalConfirmed | AgentsRunning | HospitalMode | Completed

  /** The string value each state carries. */
  function Name(s: State): string
  {
    match s
    case Idle => "Idle"
    case Monitoring => "Monitoring"
    case TriangulationPending => "TriangulationPending"
    case CriticalConfirmed => "CriticalConfirmed"
    case AgentsRunning => "AgentsRunning"
    case HospitalMode => "HospitalMode"
    case Completed => "Completed"
  }

  const StateNames: seq<string> :=
    ["Idle", "Monitoring", "TriangulationPending", "CriticalConfirmed", "AgentsRunning", "HospitalMode", "Completed"]

  predicate IsStateName(name: string) { name in StateNames }

  /** Reads a state name back; anything else is not a state. */
  function Parse(name: string): (r: Option<State>)
    ensures r.Some? <==> IsStateName(name)
    ensures r.Some? ==> Name(r.value) == name
  {
    if name == "Idle" then Some(Idle)
    else if name == "Monitoring" then Some(Monitoring)
    else if name == "TriangulationPending" then Some(TriangulationPending)
    else if name == "CriticalConfirmed" then Some(CriticalConfirmed)
    else if name == "AgentsRunning" then Some(AgentsRunning)
    else if name == "HospitalMode" then Some(HospitalMode)
    else if name == "Completed" then Some(Completed)
    else None
  }

  lemma ParseName(s: State)
    ensures Parse(Name(s)) == Some(s)
  {
  }

  /** The transition table, keyed by state name. */
  const ValidTransitions: map<string, seq<string>> := map[
    "Idle" := ["Monitoring"],
    "Monitoring" := ["TriangulationPending", "Idle"],
    "TriangulationPending" := ["CriticalConfirmed", "Idle"],
    "CriticalConfirmed" := ["AgentsRunning"],
    "AgentsRunning" := ["HospitalMode", "Completed"],
    "HospitalMode" := ["Completed"],
    "Completed" := []
  ]

  /** The lifecycle read as a graph over the typed states: forward one phase
      at a time, back to Idle only before confirmation, and an early close
      straight from AgentsRunning. */
  predicate Step(s: State, t: State)
  {
    match s
    case Idle => t == Monitoring
    case Monitoring => t == TriangulationPending || t == Idle
    case TriangulationPending => t == CriticalConfirmed || t == Idle
    case CriticalConfirmed => t == AgentsRunning
    case AgentsRunning => t == HospitalMode || t == Completed
    case HospitalMode => t == Completed
    case Completed => false
  }

  /** `can_transition` evaluated in state `current`: the target must be a
      state name and listed for the current state. */
  function CanTransitionFrom(current: State, target: string): (r: bool)
    ensures r <==> Parse(target).Some? && Step(current, Parse(target).value)
  {
    if !IsStateName(target) then false
    else
      var validTargets := if Name(current) in ValidTransitions then ValidTransitions[Name(current)] else [];
      target in validTargets
  }

  /** The position of a state along the forward path. */
  function Rank(s: State): (n: nat)
    ensures n <= 6
    ensures n == 0 <==> s == Idle
    ensures n == 6 <==> s == Completed
  {
    match s
    case Idle => 0
    case Monitoring => 1
    case TriangulationPending => 2
    case CriticalConfirmed => 3
    case AgentsRunning => 4
    case HospitalMode => 5
    case Completed => 6
  }

  /** No phase is skipped: each step advances one phase, except a
      cancellation back to Idle and the early close of a running swarm. */
  lemma StepShape(s: State, t: State)
    requires Step(s, t)
    ensures Rank(t) == Rank(s) + 1 || (t == Idle && Rank(s) <= 2) || (s == AgentsRunning && t == Completed)
  {
  }

  /** Once confirmed, an incident never falls back before confirmation. */
  lemma StepPreservesConfirmation(s: State, t: State)
    requires Step(s, t) && Rank(s) >= 3
    ensures Rank(t) > Rank(s)
  {
  }

  /** A sequence of states each reached from the previous by a valid step. */
  predicate IsPath(states: seq<State>)
  {
    forall i :: 0 <= i < |states| - 1 ==> Step(states[i], states[i + 1])
  }

  /** After confirmation the rank strictly increases along any path. */
  lemma {:induction false} ConfirmedPathsAdvance(states: seq<State>, i: nat, j: nat)
    requires IsPath(states) && i < j < |states| && Rank(states[i]) >= 3
    ensures Rank(states[j]) >= Rank(states[i]) + (j - i)
    decreases j - i
  {
    StepPreservesConfirmation(states[i], states[i + 1]);
    if i + 1 < j {
      ConfirmedPathsAdvance(states, i + 1, j);
    }
  }

  /** The confirmation step happens at most once on any path. */
  lemma {:induction false} ConfirmationAtMostOnce(states: seq<State>, i: nat, j: nat)
    requires IsPath(states) && i < |states| - 1 && j < |states| - 1
    requires states[i] == TriangulationPending && states[i + 1] == CriticalConfirmed
    requires states[j] == TriangulationPending && states[j + 1] == CriticalConfirmed
    ensures i == j
  {
    if i < j {
      ConfirmedPathsAdvance(states, i + 1, j);
    } else if j < i {
      ConfirmedPathsAdvance(states, j + 1, i);
    }
  }

  /** `data or {}` */
  function OrEmpty(data: Value): (r: Value)
    ensures Truthy(data) ==> r == data
    ensures !Truthy(data) ==> r == Obj(map[])
  {
    if Truthy(data) then data else Obj(map[])
  }

  function GpsValue(g: GpsLocation): Value
  {
    Obj(map["lat" := Num(g.lat), "lon" := Num(g.lon)])
  }

  /** What one log entry records. `Message` and `Details` give the entry's
      text and data dictionary as the source writes them. */
  datatype Event =
    | Initialized
    | PayloadStored(gps: GpsLocation)
    | Moved(from: State, to: State, reason: string, data: Value)
    | Refused(from: State, target: string, reason: string, data: Value)
    | MetadataUpdated(key: string, value: Value)

  function Message(e: Event): string
  {
    match e
    case Initialized => "State machine initialized"
    case PayloadStored(_) => "Payload received and stored"
    case Moved(from, to, _, _) => "State transition: " + Name(from) + " -> " + Name(to)
    case Refused(from, target, _, _) => "Invalid transition attempt: " + Name(from) + " -> " + target
    case MetadataUpdated(key, _) => "Metadata updated: " + key
  }

  /** The data dictionary of an entry. */
  function Details(e: Event): Value
  {
    match e
    case Initialized => Obj(map["state" := Str(Name(Idle))])
    case PayloadStored(g) => Obj(map["gps" := GpsValue(g)])
    case Moved(_, _, reason, data) => Obj(map["reason" := Str(reason), "data" := OrEmpty(data)])
    case Refused(_, _, reason, data) => Obj(map["reason" := Str(reason), "data" := data])
    case MetadataUpdated(key, value) => Obj(map["key" := Str(key), "value" := value])
  }

  /** One action log entry: the state at the time and what happened (its
      wall-clock timestamp is not modelled). */
  datatype LogEntry = LogEntry(state: State, event: Event)

  const InitEntry: LogEntry := LogEntry(Idle, Initialized)

  /** The entry a call to `transition` towards a state appends, accepted or
      refused. */
  function TransitionEntry(from: State, to: State, reason: string, data: Value, ok: bool): (e: LogEntry)
    ensures ok ==> e.state == to && e.event.Moved?
    ensures !ok ==> e.state == from && e.event.Refused?
  {
    if ok then LogEntry(to, Moved(from, to, reason, data)) else LogEntry(from, Refused(from, Name(to), reason, data))
  }

  const MonitoringReason: string := "Impact detected, starting monitoring"
  const TriangulationReason: string := "Triangulation initiated - consciousness test (5 seconds)"
  const ConfirmReason: string := "CRITICAL_EVENT_CONFIRMED - All 3 confirmations met (G-Force, Heart Rate, Silence)"
  const DefaultCancelReason: string := "User responded during cancel window"
  const ActivateReason: string := "Multi-Agent Swarm activated - Agents A, B, C dispatched in parallel"
  const HospitalReason: string := "PHASE 3: User arrived at hospital - GPS geofence match confirmed"
  const DefaultCloseReason: string := "Incident resolved"

  /** What `get_status` reports (timestamps as the supplied clock values). */
  datatype Status = Status(
    incidentId: Option<string>,
    state: State,
    createdAt: Option<int>,
    confirmedAt: Option<int>,
    logCount: nat,
    hasPayload: bool,
    gps: Option<GpsLocation>,
    bloodType: Option<string>,
    hospitalGps: Option<GpsLocation>)

  class IncidentState {
    var incidentId: Option<string>
    var state: State
    var logs: seq<LogEntry>
    var payload: Option<CrashPayloadInput>
    var createdAt: Option<int>
    var confirmedAt: Option<int>
    var hospitalGps: Option<GpsLocation>
    var metadata: map<string, Value>

    /** The first log entry is the initialisation record; the write-once
        stamps agree with the state. */
    ghost predicate Valid()
      reads this
    {
      && |logs| >= 1 && logs[0] == InitEntry
      && (confirmedAt.Some? ==> Rank(state) >= 3)
      && (hospitalGps.Some? ==> state == HospitalMode || state == Completed)
      && (createdAt.Some? <==> payload.Some?)
    }

    constructor (incidentId: Option<string>)
      ensures Valid()
      ensures this.incidentId == incidentId && state == Idle
      ensures logs == [InitEntry]
      ensures payload.None? && createdAt.None? && confirmedAt.None? && hospitalGps.None?
      ensures metadata == map[]
    {
      this.incidentId := incidentId;
      state := Idle;
      logs := [];
      payload := None;
      createdAt := None;
      confirmedAt := None;
      hospitalGps := None;
      metadata := map[];
      new;
      Log(Initialized);
    }

    /** `_log`: append one entry stamped with the current state. */
    method Log(e: Event)
      modifies this
      ensures logs == old(logs) + [LogEntry(state, e)]
      ensures state == old(state) && payload == old(payload) && createdAt == old(createdAt)
      ensures confirmedAt == old(confirmedAt) && hospitalGps == old(hospitalGps)
      ensures metadata == old(metadata) && incidentId == old(incidentId)
    {
      logs := logs + [LogEntry(state, e)];
    }

    function CanTransition(target: string): (r: bool)
      reads this
      ensures r <==> CanTransitionFrom(state, target)
    {
      CanTransitionFrom(state, target)
    }

    /** `transition`: move to the target when the table allows it; log the
        attempt either way. `data == Null` stands for no data. */
    method Transition(target: string, reason: string, data: Value) returns (ok: bool)
      requires Valid()
      modifies this
      ensures Valid()
      ensures ok == CanTransitionFrom(old(state), target)
      ensures ok ==> state == Parse(target).value && Step(old(state), state)
      ensures !ok ==> state == old(state)
      ensures ok ==> logs == old(logs) + [LogEntry(state, Moved(old(state), state, reason, data))]
      ensures !ok ==> logs == old(logs) + [LogEntry(old(state), Refused(old(state), target, reason, data))]
      ensures payload == old(payload) && createdAt == old(createdAt)
      ensures confirmedAt == old(confirmedAt) && hospitalGps == old(hospitalGps)
      ensures metadata == old(metadata) && incidentId == old(incidentId)
    {
      if !CanTransition(target) {
        Log(Refused(state, target, reason, data));
        return false;
      }
      var oldState := state;
      state := Parse(target).value;
      Log(Moved(oldState, state, reason, data));
      return true;
    }

    /** A call of `transition` with a state's own name. */
    method TransitionTo(to: State, reason: string, data: Value) returns (ok: bool)
      requires Valid()
      modifies this
      ensures Valid()
      ensures ok <==> Step(old(state), to)
      ensures ok ==> state == to
      ensures !ok ==> state == old(state)
      ensures logs == old(logs) + [TransitionEntry(old(state), to, reason, data, ok)]
      ensures payload == old(payload) && createdAt == old(createdAt)
      ensures confirmedAt == old(confirmedAt) && hospitalGps == old(hospitalGps)
      ensures metadata == old(metadata) && incidentId == old(incidentId)
    {
      ParseName(to);
      ok := Transition(Name(to), reason, data);
    }

    /** `set_payload`: store the payload; the creation stamp is written once. */
    method SetPayload(p: CrashPayloadInput, now: int)
      requires Valid()
      modifies this
      ensures Valid()
      ensures payload == Some(p)
      ensures createdAt == if old(createdAt).None? then Some(now) else old(createdAt)
      ensures logs == old(logs) + [LogEntry(state, PayloadStored(p.gps))]
      ensures state == old(state) && confirmedAt == old(confirmedAt) && hospitalGps == old(hospitalGps)
      ensures metadata == old(metadata) && incidentId == old(incidentId)
    {
      payload := Some(p);
      if createdAt.None? {
        createdAt := Some(now);
      }
      Log(PayloadStored(p.gps));
    }

    /** `start_monitoring` (and its alias `start_triage`): Idle to Monitoring,
        then store the payload. */
    method StartMonitoring(p: CrashPayloadInput, now: int) returns (ok: bool)
      requires Valid()
      modifies this
      ensures Valid()
      ensures ok <==> old(state) == Idle
      ensures ok ==> state == Monitoring && payload == Some(p)
      ensures ok ==> createdAt == if old(createdAt).None? then Some(now) else old(createdAt)
      ensures ok ==> logs == old(logs) + [TransitionEntry(Idle, Monitoring, MonitoringReason, Null, true),
                                          LogEntry(Monitoring, PayloadStored(p.gps))]
      ensures !ok ==> state == old(state) && payload == old(payload) && createdAt == old(createdAt)
      ensures !ok ==> logs == old(logs) + [TransitionEntry(old(state), Monitoring, MonitoringReason, Null, false)]
      ensures confirmedAt == old(confirmedAt) && hospitalGps == old(hospitalGps)
      ensures metadata == old(metadata) && incidentId == old(incidentId)
    {
      ok := TransitionTo(Monitoring, MonitoringReason, Null);
      if ok {
        SetPayload(p, now);
      }
    }

    /** `start_triangulation` (and its alias `start_cancel_window`). */
    method StartTriangulation() returns (ok: bool)
      requires Valid()
      modifies this
      ensures Valid()
      ensures ok <==> old(state) == Monitoring
      ensures ok ==> state == TriangulationPending
      ensures !ok ==> state == old(state)
      ensures logs == old(logs) + [TransitionEntry(old(state), TriangulationPending, TriangulationReason, Null, ok)]
      ensures payload == old(payload) && createdAt == old(createdAt)
      ensures confirmedAt == old(confirmedAt) && hospitalGps == old(hospitalGps)
      ensures metadata == old(metadata) && incidentId == old(incidentId)
    {
      ok := TransitionTo(TriangulationPending, TriangulationReason, Null);
    }

    /** `confirm_critical_event`: the only writer of the confirmation stamp. */
    method ConfirmCriticalEvent(now: int) returns (ok: bool)
      requires Valid()
      modifies this
      ensures Valid()
      ensures ok <==> old(state) == TriangulationPending
      ensures ok ==> state == CriticalConfirmed && confirmedAt == Some(now)
      ensures !ok ==> state == old(state) && confirmedAt == old(confirmedAt)
      ensures logs == old(logs) + [TransitionEntry(old(state), CriticalConfirmed, ConfirmReason, Null, ok)]
      ensures payload == old(payload) && createdAt == old(createdAt) && hospitalGps == old(hospitalGps)
      ensures metadata == old(metadata) && incidentId == old(incidentId)
    {
      ok := TransitionTo(CriticalConfirmed, ConfirmReason, Null);
      if ok {
        confirmedAt := Some(now);
      }
    }

    /** `cancel_incident`: back to Idle from Monitoring or TriangulationPending;
        from any other state nothing happens and nothing is logged. */
    method CancelIncident(reason: string) returns (ok: bool)
      requires Valid()
      modifies this
      ensures Valid()
      ensures ok <==> old(state) == Monitoring || old(state) == TriangulationPending
      ensures ok ==> state == Idle && logs == old(logs) + [TransitionEntry(old(state), Idle, reason, Null, true)]
      ensures !ok ==> state == old(state) && logs == old(logs)
      ensures payload == old(payload) && createdAt == old(createdAt)
      ensures confirmedAt == old(confirmedAt) && hospitalGps == old(hospitalGps)
      ensures metadata == old(metadata) && incidentId == old(incidentId)
    {
      if state == TriangulationPending {
        ok := TransitionTo(Idle, reason, Null);
      } else if state == Monitoring {
        ok := TransitionTo(Idle, reason, Null);
      } else {
        ok := false;
      }
    }

    /** `activate_protocol`: CriticalConfirmed to AgentsRunning. */
    method ActivateProtocol() returns (ok: bool)
      requires Valid()
      modifies this
      ensures Valid()
      ensures ok <==> old(state) == CriticalConfirmed
      ensures ok ==> state == AgentsRunning
      ensures !ok ==> state == old(state)
      ensures logs == old(logs) + [TransitionEntry(old(state), AgentsRunning, ActivateReason, Null, ok)]
      ensures payload == old(payload) && createdAt == old(createdAt)
      ensures confirmedAt == old(confirmedAt) && hospitalGps == old(hospitalGps)
      ensures metadata == old(metadata) && incidentId == old(incidentId)
    {
      ok := TransitionTo(AgentsRunning, ActivateReason, Null);
    }

    /** `enter_hospital_mode`: the hospital position is stored only when the
        AgentsRunning to HospitalMode transition succeeds. */
    method EnterHospitalMode(gps: GpsLocation) returns (ok: bool)
      requires Valid()
      modifies this
      ensures Valid()
      ensures ok <==> old(state) == AgentsRunning
      ensures ok ==> state == HospitalMode && hospitalGps == Some(gps)
      ensures !ok ==> state == old(state) && hospitalGps == old(hospitalGps)
      ensures logs == old(logs) + [TransitionEntry(old(state), HospitalMode, HospitalReason, Obj(map["hospital_gps" := GpsValue(gps)]), ok)]
      ensures payload == old(payload) && createdAt == old(createdAt) && confirmedAt == old(confirmedAt)
      ensures metadata == old(metadata) && incidentId == old(incidentId)
    {
      ok := TransitionTo(HospitalMode, HospitalReason, Obj(map["hospital_gps" := GpsValue(gps)]));
      if ok {
        hospitalGps := Some(gps);
      }
    }

    /** `close_incident`: to Completed from AgentsRunning or HospitalMode. */
    method CloseIncident(reason: string) returns (ok: bool)
      requires Valid()
      modifies this
      ensures Valid()
      ensures ok <==> old(state) == AgentsRunning || old(state) == HospitalMode
      ensures ok ==> state == Completed
      ensures !ok ==> state == old(state)
      ensures logs == old(logs) + [TransitionEntry(old(state), Completed, reason, Null, ok)]
      ensures payload == old(payload) && createdAt == old(createdAt)
      ensures confirmedAt == old(confirmedAt) && hospitalGps == old(hospitalGps)
      ensures metadata == old(metadata) && incidentId == old(incidentId)
    {
      ok := TransitionTo(Completed, reason, Null);
    }

    /** `get_status`: position and blood type appear only with a payload,
        the hospital position only once it is known. */
    function GetStatus(): (s: Status)
      reads this
      ensures s.state == state && s.logCount == |logs| && s.incidentId == incidentId
      ensures s.createdAt == createdAt && s.confirmedAt == confirmedAt
      ensures s.hasPayload <==> payload.Some?
      ensures s.gps.Some? <==> payload.Some?
      ensures payload.Some? ==> s.gps == Some(payload.value.gps) && s.bloodType == Some(payload.value.bloodType)
      ensures payload.None? ==> s.bloodType.None?
      ensures s.hospitalGps == hospitalGps
    {
      Status(
        incidentId, state, createdAt, confirmedAt, |logs|, payload.Some?,
        if payload.Some? then Some(payload.value.gps) else None,
        if payload.Some? then Some(payload.value.bloodType) else None,
        hospitalGps)
    }

    /** `get_recent_logs(limit)`: Python's `logs[-limit:]`, so a positive
        limit gives the last `limit` entries and a zero limit all of them. */
    function GetRecentLogs(limit: int): (r: seq<LogEntry>)
      reads this
      ensures |r| <= |logs| && r == logs[|logs| - |r|..]
      ensures limit > 0 ==> |r| == if limit < |logs| then limit else |logs|
      ensures limit == 0 ==> r == logs
    {
      if logs == [] then [] else PyTail(logs, limit)
    }

    function GetAllLogs(): (r: seq<LogEntry>)
      reads this
      ensures r == logs
    {
      logs
    }

    /** `update_metadata`: set one key and log it. */
    method UpdateMetadata(key: string, value: Value)
      requires Valid()
      modifies this
      ensures Valid()
      ensures metadata == old(metadata)[key := value]
      ensures logs == old(logs) + [LogEntry(state, MetadataUpdated(key, value))]
      ensures state == old(state) && payload == old(payload) && createdAt == old(createdAt)
      ensures confirmedAt == old(confirmedAt) && hospitalGps == old(hospitalGps) && incidentId == old(incidentId)
    {
      metadata := metadata[key := value];
      Log(MetadataUpdated(key, value));
    }

    function IsTerminal(): (r: bool)
      reads this
      ensures r <==> state == Completed
    {
      Name(state) == "Completed"
    }

    function IsActive(): (r: bool)
      reads this
      ensures r <==> state != Idle && state != Completed
    {
      Name(state) !in ["Idle", "Completed"]
    }
  }

  /** A terminal machine accepts no transition whatsoever. */
  lemma TerminalRejectsEverything(target: string)
    ensures !CanTransitionFrom(Completed, target)
  {
  }

  /** A confirmed machine can no longer be confirmed again. */
  lemma NoSecondConfirmation(current: State)
    requires Rank(current) >= 3
    ensures !CanTransitionFrom(current, "CriticalConfirmed")
  {
  }

  /** Cancellation is possible exactly from the two pre-confirmation phases
      that have seen an impact. */
  lemma CancelOnlyBeforeConfirmation(current: State)
    ensures CanTransitionFrom(current, "Idle") <==> current == Monitoring || current == TriangulationPending
  {
  }
}
