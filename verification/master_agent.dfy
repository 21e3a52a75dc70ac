/** Phase 2, the agent swarm: the dispatcher, guardian and treasurer results
    are collected, failures are turned into result dictionaries, the
    treasurer is refined with the dispatcher's hospital, and the overall
    verdict is recorded on the incident's state machine. */
module MasterAgent {
  import opened Common
  import opened StateMachine

  type Dict = map<string, Value>

  /** What the three agents and the treasurer's second run do: each returns
      a result dictionary or raises; `timedOut` is the swarm timeout firing
      before all three first runs are back; `guardianStartsRecording` is the
      guardian reaching its black-box step, which starts and registers a
      recorder for the incident whatever the guardian then reports. */
  datatype SwarmInputs = SwarmInputs(
    timedOut: bool,
    dispatcher: Outcome<Dict>,
    guardian: Outcome<Dict>,
    treasurer: Outcome<Dict>,
    treasurerRerun: Outcome<Dict>,
    guardianStartsRecording: bool)

  datatype SwarmResult = SwarmResult(
    success: Value,
    dispatcherResult: Dict,
    guardianResult: Dict,
    treasurerResult: Dict,
    message: string)

  const TimeoutMessage: string := "Swarm activation timed out"
  const AllSucceededMessage: string := "All agents completed successfully"
  const SomeFailedMessage: string := "Some agents encountered errors"
  const MasterErrorPrefix: string := "Master agent error: "

  /** The result before any agent has answered. */
  const InitialResult: SwarmResult := SwarmResult(Bool(false), map[], map[], map[], "")

  /** An agent's result, an exception becoming `{"success": False, "error": …}`. */
  function AgentResult(o: Outcome<Dict>): (d: Dict)
    ensures o.Returned? ==> d == o.value
    ensures o.Raised? ==> d == map["success" := Bool(false), "error" := Str(o.error)] && !Succeeded(d)
  {
    match o
    case Returned(d) => d
    case Raised(e) => map["success" := Bool(false), "error" := Str(e)]
  }

  /** `d.get("success")` is truthy. */
  predicate Succeeded(d: Dict)
  {
    Truthy(Get(d, "success", Null))
  }

  /** Python's `a and b`: a when a is falsy, otherwise b. */
  function PyAnd(a: Value, b: Value): (r: Value)
    ensures Truthy(r) <==> Truthy(a) && Truthy(b)
  {
    if Truthy(a) then b else a
  }

  /** The overall flag: the three first-pass `success` values joined by `and`. */
  function AllSuccess(d: Dict, g: Dict, t: Dict): (r: Value)
    ensures Truthy(r) <==> Succeeded(d) && Succeeded(g) && Succeeded(t)
  {
    PyAnd(PyAnd(Get(d, "success", Bool(false)), Get(g, "success", Bool(false))), Get(t, "success", Bool(false)))
  }

  /** The treasurer runs a second time only when the dispatcher succeeded
      with a hospital. */
  predicate NeedsRerun(d: Dict)
  {
    Succeeded(d) && Truthy(Get(d, "hospital", Null))
  }

  /** What `activate_swarm` returns for the given agent behaviour. */
  predicate SwarmResultFor(i: SwarmInputs, r: SwarmResult)
  {
    if i.timedOut then r == InitialResult.(message := TimeoutMessage)
    else
      var d := AgentResult(i.dispatcher);
      var g := AgentResult(i.guardian);
      var t := AgentResult(i.treasurer);
      && r.dispatcherResult == d && r.guardianResult == g
      && if NeedsRerun(d) && i.treasurerRerun.Raised? then
           && r.treasurerResult == t
           && r.success == Bool(false)
           && r.message == MasterErrorPrefix + i.treasurerRerun.error
         else
           && r.treasurerResult == (if NeedsRerun(d) && Succeeded(i.treasurerRerun.value) then i.treasurerRerun.value else t)
           && r.success == AllSuccess(d, g, t)
           && r.message == (if Truthy(r.success) then AllSucceededMessage else SomeFailedMessage)
  }

  /** `activate_swarm`, filling the result step by step. */
  method ActivateSwarm(i: SwarmInputs) returns (r: SwarmResult)
    ensures SwarmResultFor(i, r)
  {
    r := InitialResult;
    if i.timedOut {
      r := r.(message := TimeoutMessage);
      return;
    }
    var dispatcher := AgentResult(i.dispatcher);
    var guardian := AgentResult(i.guardian);
    var treasurer := AgentResult(i.treasurer);
    r := r.(dispatcherResult := dispatcher, guardianResult := guardian, treasurerResult := treasurer);
    if Succeeded(dispatcher) && Truthy(Get(dispatcher, "hospital", Null)) {
      match i.treasurerRerun
      case Raised(e) =>
        r := r.(message := MasterErrorPrefix + e);
        return;
      case Returned(updated) =>
        if Succeeded(updated) {
          r := r.(treasurerResult := updated);
        }
    }
    var allSuccess := AllSuccess(dispatcher, guardian, treasurer);
    r := r.(success := allSuccess);
    if Truthy(allSuccess) {
      r := r.(message := AllSucceededMessage);
    } else {
      r := r.(message := SomeFailedMessage);
    }
  }

  /** The swarm result as the dictionary stored in the metadata. */
  function SwarmValue(r: SwarmResult): Value
  {
    Obj(map["success" := r.success, "dispatcher_result" := Obj(r.dispatcherResult),
            "guardian_result" := Obj(r.guardianResult), "treasurer_result" := Obj(r.treasurerResult),
            "message" := Str(r.message)])
  }

  /** `handle_phase_2`: AgentsRunning is entered only from CriticalConfirmed,
      and the swarm result is always recorded under "swarm_result". */
  method HandlePhase2(sm: IncidentState, i: SwarmInputs) returns (r: SwarmResult)
    requires sm.Valid()
    modifies sm
    ensures sm.Valid()
    ensures SwarmResultFor(i, r)
    ensures old(sm.state) == CriticalConfirmed ==> sm.state == AgentsRunning
    ensures old(sm.state) != CriticalConfirmed ==> sm.state == old(sm.state)
    ensures sm.metadata == old(sm.metadata)["swarm_result" := SwarmValue(r)]
    ensures sm.logs == old(sm.logs)
        + (if old(sm.state) == CriticalConfirmed then [TransitionEntry(CriticalConfirmed, AgentsRunning, ActivateReason, Null, true)] else [])
        + [LogEntry(sm.state, MetadataUpdated("swarm_result", SwarmValue(r)))]
    ensures sm.payload == old(sm.payload) && sm.createdAt == old(sm.createdAt) && sm.confirmedAt == old(sm.confirmedAt)
    ensures sm.hospitalGps == old(sm.hospitalGps) && sm.incidentId == old(sm.incidentId)
  {
    ghost var logs0 := sm.logs;
    ghost var activation: seq<LogEntry> := [];
    if sm.state == CriticalConfirmed {
      var _ := sm.ActivateProtocol();
      activation := [TransitionEntry(CriticalConfirmed, AgentsRunning, ActivateReason, Null, true)];
    }
    assert sm.logs == logs0 + activation;
    r := ActivateSwarm(i);
    sm.UpdateMetadata("swarm_result", SwarmValue(r));
  }

  /** The result is a function of the agents' behaviour. */
  lemma {:induction false} SwarmResultIsDetermined(i: SwarmInputs, r1: SwarmResult, r2: SwarmResult)
    requires SwarmResultFor(i, r1) && SwarmResultFor(i, r2)
    ensures r1 == r2
  {
  }

  /** The message reports success exactly when the overall flag is truthy,
      unless the swarm timed out or the master itself failed. */
  lemma MessageMatchesSuccess(i: SwarmInputs, r: SwarmResult)
    requires SwarmResultFor(i, r)
    ensures r.message == AllSucceededMessage ==> Truthy(r.success)
    ensures Truthy(r.success) ==> r.message == AllSucceededMessage
    ensures r.message == TimeoutMessage <==> i.timedOut
  {
    if !i.timedOut && NeedsRerun(AgentResult(i.dispatcher)) && i.treasurerRerun.Raised? {
      assert r.message[0] == 'M';
      assert AllSucceededMessage[0] == 'A' && TimeoutMessage[0] == 'S';
    }
  }

  /** A failing agent spoils the overall flag but keeps the other results. */
  lemma OneFailureKeepsOthers(i: SwarmInputs, r: SwarmResult, e: string)
    requires SwarmResultFor(i, r) && !i.timedOut && i.guardian == Raised(e)
    ensures !Truthy(r.success)
    ensures r.guardianResult == map["success" := Bool(false), "error" := Str(e)]
    ensures r.dispatcherResult == AgentResult(i.dispatcher)
  {
  }

  /** The overall flag looks at the treasurer's first run only: a failed
      first run refined into a success still reports a partial failure. */
  lemma {:induction false} RefinementDoesNotCount(i: SwarmInputs, r: SwarmResult, hospital: Value)
    requires SwarmResultFor(i, r) && !i.timedOut
    requires i.dispatcher == Returned(map["success" := Bool(true), "hospital" := hospital]) && Truthy(hospital)
    requires i.guardian == Returned(map["success" := Bool(true)])
    requires i.treasurer.Raised? && i.treasurerRerun == Returned(map["success" := Bool(true)])
    ensures Succeeded(r.treasurerResult)
    ensures !Truthy(r.success) && r.message == SomeFailedMessage
  {
    assert NeedsRerun(AgentResult(i.dispatcher));
    assert Succeeded(i.treasurerRerun.value);
  }
}
