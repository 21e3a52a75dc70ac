/** The registry of running crash simulations and their cancellation flags,
    through which the stop button reaches a simulation in progress. */
module CrashTaskManager {
  import opened Common

  /** The part of a running task the registry looks at: whether it has
      finished, and whether cancellation has been requested of it. */
  datatype TaskHandle = TaskHandle(done: bool, cancelRequested: bool)

  /** No element occurs twice. */
  predicate Distinct(s: seq<string>)
  {
    forall i, j :: 0 <= i < j < |s| ==> s[i] != s[j]
  }

  /** s without the element x. */
  function Remove(s: seq<string>, x: string): (r: seq<string>)
    ensures forall y :: y in r <==> y in s && y != x
    ensures Distinct(s) ==> Distinct(r)
    ensures x !in s ==> r == s
  {
    if s == [] then []
    else
      var rest := Remove(s[1..], x);
      if s[0] == x then rest
      else
        assert Distinct(s) ==> Distinct([s[0]] + rest) by {
          if Distinct(s) {
            DistinctTail(s);
          }
        }
        [s[0]] + rest
  }

  lemma DistinctTail(s: seq<string>)
    requires Distinct(s) && s != []
    ensures Distinct(s[1..]) && s[0] !in s[1..]
  {
  }

  /** A distinct list has as many elements as its set of elements. */
  lemma {:induction false} DistinctLength(s: seq<string>)
    requires Distinct(s)
    ensures |set x | x in s| == |s|
  {
    if s != [] {
      var rest := s[1..];
      assert Distinct(rest);
      DistinctLength(rest);
      assert s[0] !in rest;
      assert (set x | x in s) == {s[0]} + (set x | x in rest);
    }
  }

  /** The flag map after a cancel request: only an existing flag is raised. */
  function RaiseFlag(flags: map<string, bool>, id: string): (r: map<string, bool>)
    ensures r.Keys == flags.Keys
    ensures id in flags ==> r[id]
    ensures forall k :: k in flags && k != id ==> r[k] == flags[k]
  {
    if id in flags then flags[id := true] else flags
  }

  /** The handle after a cancel request: a finished task is left alone. */
  function RequestCancel(h: TaskHandle): (r: TaskHandle)
    ensures r.done == h.done
    ensures r.cancelRequested <==> h.cancelRequested || !h.done
  {
    if h.done then h else h.(cancelRequested := true)
  }

  /** The task map after a cancel request for id, given the flags it was
      checked against. */
  function CancelTask(tasks: map<string, TaskHandle>, flags: map<string, bool>, id: string): (r: map<string, TaskHandle>)
    ensures r.Keys == tasks.Keys
    ensures id in flags && id in tasks ==> r[id] == RequestCancel(tasks[id])
    ensures forall k :: k in tasks && (k != id || id !in flags) ==> r[k] == tasks[k]
  {
    if id in flags && id in tasks then tasks[id := RequestCancel(tasks[id])] else tasks
  }

  /** The flags after cancelling each id of ids in turn. */
  function RaiseAll(flags: map<string, bool>, ids: seq<string>): (r: map<string, bool>)
    decreases |ids|
  {
    if ids == [] then flags else RaiseFlag(RaiseAll(flags, ids[..|ids| - 1]), ids[|ids| - 1])
  }

  /** The tasks after cancelling each id of ids in turn. */
  function CancelAllTasks(tasks: map<string, TaskHandle>, flags: map<string, bool>, ids: seq<string>): (r: map<string, TaskHandle>)
    decreases |ids|
  {
    if ids == [] then tasks else CancelTask(CancelAllTasks(tasks, flags, ids[..|ids| - 1]), flags, ids[|ids| - 1])
  }

  /** Cancelling a list of ids keeps the keys and raises the flag of each
      listed id that had one; other flags keep their value. */
  lemma {:induction false} RaiseAllEffect(flags: map<string, bool>, ids: seq<string>)
    ensures RaiseAll(flags, ids).Keys == flags.Keys
    ensures forall k :: k in flags ==> RaiseAll(flags, ids)[k] == (k in ids || flags[k])
    decreases |ids|
  {
    if ids != [] {
      var init := ids[..|ids| - 1];
      RaiseAllEffect(flags, init);
      assert forall k :: k in ids <==> k in init || k == ids[|ids| - 1];
    }
  }

  /** Cancelling a list of distinct ids asks each listed, flagged, running
      task to stop exactly once and leaves every other task alone. */
  lemma {:induction false} CancelAllTasksEffect(tasks: map<string, TaskHandle>, flags: map<string, bool>, ids: seq<string>)
    requires Distinct(ids)
    ensures CancelAllTasks(tasks, flags, ids).Keys == tasks.Keys
    ensures forall k :: k in tasks ==>
      CancelAllTasks(tasks, flags, ids)[k] == if k in ids && k in flags then RequestCancel(tasks[k]) else tasks[k]
    decreases |ids|
  {
    if ids != [] {
      var init := ids[..|ids| - 1];
      var last := ids[|ids| - 1];
      assert Distinct(init);
      CancelAllTasksEffect(tasks, flags, init);
      assert last !in init by {
        forall j | 0 <= j < |init| ensures init[j] != last {
          assert init[j] == ids[j];
        }
      }
      assert forall k :: k in ids <==> k in init || k == last;
    }
  }

  /** Cancelling every registered id, as `cancel_all_simulations` does,
      raises every flag and asks every unfinished task to stop. */
  lemma CancelEveryRegisteredId(tasks: map<string, TaskHandle>, flags: map<string, bool>, order: seq<string>)
    requires forall id :: id in tasks <==> id in flags
    requires Distinct(order) && forall id :: id in order <==> id in tasks
    ensures RaiseAll(flags, order).Keys == flags.Keys
    ensures forall id :: id in flags ==> RaiseAll(flags, order)[id]
    ensures CancelAllTasks(tasks, flags, order).Keys == tasks.Keys
    ensures forall id :: id in tasks ==> CancelAllTasks(tasks, flags, order)[id] == RequestCancel(tasks[id])
  {
    RaiseAllEffect(flags, order);
    CancelAllTasksEffect(tasks, flags, order);
  }

  class CancelRegistry {
    /** The active simulation tasks by incident id. */
    var tasks: map<string, TaskHandle>
    /** The cancellation flags by incident id. */
    var flags: map<string, bool>
    /** The ids of `tasks` in insertion order, as the dictionary keeps them. */
    var order: seq<string>

    ghost predicate Valid()
      reads this
    {
      && (forall id :: id in tasks <==> id in flags)
      && Distinct(order)
      && (forall id :: id in order <==> id in tasks)
    }

    constructor ()
      ensures Valid()
      ensures tasks == map[] && flags == map[] && order == []
    {
      tasks := map[];
      flags := map[];
      order := [];
    }

    /** `register_crash_task`: store the task and reset its flag. */
    method Register(id: string, task: TaskHandle)
      requires Valid()
      modifies this
      ensures Valid()
      ensures tasks == old(tasks)[id := task]
      ensures flags == old(flags)[id := false]
      ensures order == if id in old(tasks) then old(order) else old(order) + [id]
    {
      if id !in tasks {
        order := order + [id];
      }
      tasks := tasks[id := task];
      flags := flags[id := false];
    }

    /** `cancel_crash_simulation`: raise the flag of a registered id and ask
        its task to stop; unknown ids are reported and left alone. */
    method Cancel(id: string) returns (ok: bool)
      requires Valid()
      modifies this
      ensures Valid()
      ensures ok <==> id in old(flags)
      ensures flags == RaiseFlag(old(flags), id)
      ensures tasks == if ok && id in old(tasks) then old(tasks)[id := RequestCancel(old(tasks)[id])] else old(tasks)
      ensures order == old(order)
    {
      if id in flags {
        flags := flags[id := true];
        if id in tasks {
          var task := tasks[id];
          if !task.done {
            tasks := tasks[id := task.(cancelRequested := true)];
            return true;
          } else {
            return true;
          }
        }
        return true;
      } else {
        return false;
      }
    }

    /** `is_cancelled`: false for ids never registered or since removed. */
    function IsCancelled(id: string): (r: bool)
      reads this
      ensures r <==> id in flags && flags[id]
      ensures id !in flags ==> !r
    {
      if id in flags then flags[id] else false
    }

    /** `unregister_crash_task`: forget both entries of the id. */
    method Unregister(id: string)
      requires Valid()
      modifies this
      ensures Valid()
      ensures tasks == old(tasks) - {id} && flags == old(flags) - {id}
      ensures order == Remove(old(order), id)
      ensures id !in old(tasks) && id !in old(flags) ==> tasks == old(tasks) && flags == old(flags) && order == old(order)
    {
      if id in tasks {
        tasks := tasks - {id};
      }
      if id in flags {
        flags := flags - {id};
      }
      order := Remove(order, id);
    }

    /** `get_active_incident_ids`: the task keys, each once, in insertion order. */
    function ActiveIncidentIds(): (r: seq<string>)
      reads this
      requires Valid()
      ensures Distinct(r)
      ensures forall id :: id in r <==> id in tasks
      ensures |r| == |tasks|
    {
      DistinctLength(order);
      assert (set x | x in order) == tasks.Keys;
      order
    }

    /** `cancel_all_simulations`: cancel every registered id and count the
        cancellations that were accepted. */
    method CancelAll() returns (count: nat)
      requires Valid()
      modifies this
      ensures Valid()
      ensures count == |old(tasks)|
      ensures flags == RaiseAll(old(flags), old(order)) && tasks == CancelAllTasks(old(tasks), old(flags), old(order))
      ensures order == old(order)
    {
      var ids := ActiveIncidentIds();
      count := 0;
      var i := 0;
      while i < |ids|
        invariant 0 <= i <= |ids|
        invariant Valid() && order == ids
        invariant count == i
        invariant flags == RaiseAll(old(flags), ids[..i])
        invariant tasks == CancelAllTasks(old(tasks), old(flags), ids[..i])
      {
        var id := ids[i];
        assert id in flags by {
          RaiseAllEffect(old(flags), ids[..i]);
        }
        var ok := Cancel(id);
        if ok {
          count := count + 1;
        }
        assert ids[..i + 1][..i] == ids[..i];
        i := i + 1;
      }
      assert ids[..i] == ids;
    }
  }

  /** Raising a flag twice is the same as raising it once. */
  lemma RaiseFlagIdempotent(flags: map<string, bool>, id: string)
    ensures RaiseFlag(RaiseFlag(flags, id), id) == RaiseFlag(flags, id)
  {
  }
}
