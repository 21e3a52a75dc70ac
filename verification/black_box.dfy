/** The black-box audio recorder: a rolling buffer of the most recent audio
    chunks, and the registry of recorders by incident. */
module BlackBox {
  import opened Common

  /** One simulated audio chunk of 100 ms (its wall-clock timestamp is not
      modelled); `Data` gives its simulated payload. */
  datatype Chunk = Chunk(index: nat, incidentId: string)

  const ChunkDurationMs: nat := 100

  function Data(c: Chunk): string
  {
    "audio_chunk_" + NatToString(c.index)
  }

  /** The last n elements of s (all of s when it is shorter). */
  function LastN<T>(s: seq<T>, n: nat): (r: seq<T>)
    ensures |r| == if |s| < n then |s| else n
  {
    if |s| <= n then s else s[|s| - n..]
  }

  /** `deque.append` on a deque with `maxlen = cap`: when full, the oldest
      element is dropped. */
  function RollingAppend<T>(buf: seq<T>, x: T, cap: nat): (r: seq<T>)
    requires |buf| <= cap
    ensures |r| <= cap
    ensures cap > 0 ==> r != [] && r[|r| - 1] == x
    ensures r == LastN(buf + [x], cap)
  {
    if cap == 0 then []
    else if |buf| < cap then buf + [x]
    else buf[1..] + [x]
  }

  /** A rolling buffer always holds the most recent elements ever appended. */
  lemma {:induction false} RollingAppendKeepsNewest<T>(all: seq<T>, buf: seq<T>, x: T, cap: nat)
    requires buf == LastN(all, cap)
    ensures RollingAppend(buf, x, cap) == LastN(all + [x], cap)
  {
    var r := RollingAppend(buf, x, cap);
    var t := LastN(all + [x], cap);
    assert |r| == |t|;
    forall i | 0 <= i < |r|
      ensures r[i] == t[i]
    {
      if i == |r| - 1 {
        assert r[i] == (buf + [x])[|buf| + 1 - |r| + i];
      } else {
        assert r[i] == (buf + [x])[|buf| + 1 - |r| + i];
        assert (buf + [x])[|buf| + 1 - |r| + i] == buf[|buf| + 1 - |r| + i];
        assert buf[|buf| + 1 - |r| + i] == all[|all| - |buf| + |buf| + 1 - |r| + i];
      }
    }
  }

  /** The chunks one capture run of an incident produces, in order: their
      indices count 0, 1, 2, ... */
  function RunChunks(id: string, n: nat): (r: seq<Chunk>)
    ensures |r| == n
  {
    if n == 0 then [] else RunChunks(id, n - 1) + [Chunk(n - 1, id)]
  }

  lemma {:induction false} RunChunksIndex(id: string, n: nat, i: nat)
    requires i < n
    ensures RunChunks(id, n)[i] == Chunk(i, id)
    decreases n
  {
    if i < n - 1 {
      RunChunksIndex(id, n - 1, i);
    }
  }

  /** A recorder's buffer is the newest `cap` chunks of all it ever
      appended, and what was appended from `start` on is the current run's
      first `next` chunks. */
  ghost predicate Window(buffer: seq<Chunk>, appended: seq<Chunk>, start: nat, next: nat, cap: nat, id: string)
  {
    && buffer == LastN(appended, cap)
    && start <= |appended|
    && appended[start..] == RunChunks(id, next)
  }

  /** Appending the run's next chunk keeps the window. */
  lemma WindowStep(buffer: seq<Chunk>, appended: seq<Chunk>, start: nat, next: nat, cap: nat, id: string)
    requires Window(buffer, appended, start, next, cap, id)
    ensures |buffer| <= cap
    ensures Window(RollingAppend(buffer, Chunk(next, id), cap), appended + [Chunk(next, id)], start, next + 1, cap, id)
  {
    var c := Chunk(next, id);
    RollingAppendKeepsNewest(appended, buffer, c, cap);
    calc {
      (appended + [c])[start..];
      { assert start <= |appended|; }
      appended[start..] + [c];
      RunChunks(id, next) + [c];
      RunChunks(id, next + 1);
    }
  }

  /** Once a run has produced a full buffer's worth, the buffer holds
      exactly that run's newest chunks, numbered consecutively up to the
      latest. */
  lemma {:induction false} FullBufferIsNewestOfRun(buffer: seq<Chunk>, appended: seq<Chunk>, start: nat, next: nat, cap: nat,
                                                   id: string, i: nat)
    requires Window(buffer, appended, start, next, cap, id) && next >= cap && i < |buffer|
    ensures |buffer| == cap
    ensures buffer[i] == Chunk(next - cap + i, id)
  {
    assert |appended| == start + next;
    assert buffer[i] == appended[|appended| - cap + i];
    assert appended[|appended| - cap + i] == appended[start..][next - cap + i];
    RunChunksIndex(id, next, next - cap + i);
  }

  /** What `stop_recording` returns: an empty dictionary when nothing was
      being recorded, otherwise the recording's summary. */
  datatype StopSummary =
    | Empty
    | Summary(recordingId: string, incidentId: string, startTime: Option<int>, endTime: int,
              durationSeconds: int, bufferChunks: nat, bufferDurationSeconds: nat)

  /** What `get_status` reports. */
  datatype RecorderStatus = RecorderStatus(recordingId: string, incidentId: string, isRecording: bool,
                                           startTime: Option<int>, bufferSize: nat, bufferDurationSeconds: nat)

  class BlackBoxRecorder {
    var incidentId: string
    var bufferDuration: nat
    var isRecording: bool
    var recordingId: string
    var buffer: seq<Chunk>
    var startTime: Option<int>
    /** The index the running capture loop gives its next chunk. */
    var nextChunk: nat
    /** Every chunk appended since creation, and where the current capture
        loop started numbering. */
    ghost var appended: seq<Chunk>
    ghost var sessionStart: nat

    ghost predicate Valid()
      reads this
    {
      && Window(buffer, appended, sessionStart, nextChunk, bufferDuration, incidentId)
      && (isRecording ==> startTime.Some?)
    }

    /** A new recorder is idle with an empty buffer of the given capacity. */
    constructor (incidentId: string, bufferDuration: nat, now: DateTime)
      requires ValidDateTime(now)
      ensures Valid()
      ensures this.incidentId == incidentId && this.bufferDuration == bufferDuration
      ensures !isRecording && buffer == [] && startTime.None?
      ensures recordingId == "recording_" + incidentId + "_" + CompactDate(now) + "_" + CompactTime(now)
    {
      this.incidentId := incidentId;
      this.bufferDuration := bufferDuration;
      isRecording := false;
      recordingId := "recording_" + incidentId + "_" + CompactDate(now) + "_" + CompactTime(now);
      buffer := [];
      startTime := None;
      nextChunk := 0;
      appended := [];
      sessionStart := 0;
    }

    /** `start_recording`: a second start changes nothing and returns the
        same id; otherwise a new capture loop starts numbering at 0. */
    method StartRecording(now: int) returns (id: string)
      requires Valid()
      modifies this
      ensures Valid()
      ensures id == recordingId && recordingId == old(recordingId)
      ensures old(isRecording) ==> isRecording && startTime == old(startTime) && nextChunk == old(nextChunk)
      ensures !old(isRecording) ==> isRecording && startTime == Some(now) && nextChunk == 0
      ensures buffer == old(buffer) && incidentId == old(incidentId) && bufferDuration == old(bufferDuration)
    {
      if isRecording {
        return recordingId;
      }
      isRecording := true;
      startTime := Some(now);
      nextChunk := 0;
      sessionStart := |appended|;
      return recordingId;
    }

    /** One turn of the capture loop, `elapsed` seconds after the start: a
        stopped recorder does nothing, a recording of 60 seconds or more
        stops itself, otherwise the next chunk is appended. */
    method RecordStep(elapsed: real)
      requires Valid()
      modifies this
      ensures Valid()
      ensures !old(isRecording) ==> isRecording == old(isRecording) && buffer == old(buffer) && nextChunk == old(nextChunk)
      ensures old(isRecording) && elapsed >= 60.0 ==> !isRecording && buffer == old(buffer)
      ensures old(isRecording) && elapsed < 60.0 ==>
        && isRecording
        && |old(buffer)| <= bufferDuration
        && buffer == RollingAppend(old(buffer), Chunk(old(nextChunk), incidentId), bufferDuration)
        && nextChunk == old(nextChunk) + 1
      ensures |buffer| <= bufferDuration
      ensures startTime == old(startTime) && recordingId == old(recordingId)
      ensures incidentId == old(incidentId) && bufferDuration == old(bufferDuration)
    {
      if !isRecording {
        return;
      }
      if elapsed >= 60.0 {
        isRecording := false;
        return;
      }
      AppendChunk();
    }

    /** Appends the run's next chunk to the rolling buffer. */
    method AppendChunk()
      requires Valid()
      modifies this
      ensures Valid()
      ensures |old(buffer)| <= bufferDuration
      ensures buffer == RollingAppend(old(buffer), Chunk(old(nextChunk), incidentId), bufferDuration)
      ensures nextChunk == old(nextChunk) + 1
      ensures isRecording == old(isRecording) && startTime == old(startTime) && recordingId == old(recordingId)
      ensures incidentId == old(incidentId) && bufferDuration == old(bufferDuration)
    {
      var chunk := Chunk(nextChunk, incidentId);
      WindowStep(buffer, appended, sessionStart, nextChunk, bufferDuration, incidentId);
      buffer := RollingAppend(buffer, chunk, bufferDuration);
      appended := appended + [chunk];
      nextChunk := nextChunk + 1;
    }

    /** `stop_recording`: nothing to report when idle; otherwise stop and
        report the number of chunks held. */
    method StopRecording(now: int) returns (s: StopSummary)
      requires Valid()
      modifies this
      ensures Valid()
      ensures !old(isRecording) ==> s == Empty && isRecording == old(isRecording)
      ensures old(isRecording) ==> !isRecording && s.Summary?
      ensures s.Summary? ==>
        && s.recordingId == recordingId && s.incidentId == incidentId
        && s.startTime == startTime && startTime.Some? && s.endTime == now
        && s.durationSeconds == now - startTime.value
        && s.bufferChunks == |buffer| && s.bufferDurationSeconds == bufferDuration
      ensures buffer == old(buffer) && startTime == old(startTime) && recordingId == old(recordingId)
      ensures incidentId == old(incidentId) && bufferDuration == old(bufferDuration)
    {
      if !isRecording {
        return Empty;
      }
      isRecording := false;
      var duration := if startTime.Some? then now - startTime.value else 0;
      s := Summary(recordingId, incidentId, startTime, now, duration, |buffer|, bufferDuration);
    }

    /** `get_buffer`: the chunks held, oldest first. */
    function GetBuffer(): (r: seq<Chunk>)
      reads this
      requires Valid()
      ensures |r| <= bufferDuration
      ensures r == LastN(appended, bufferDuration)
    {
      buffer
    }

    function GetStatus(): (st: RecorderStatus)
      reads this
      ensures st.recordingId == recordingId && st.incidentId == incidentId
      ensures st.isRecording == isRecording && st.startTime == startTime
      ensures st.bufferSize == |buffer| && st.bufferDurationSeconds == bufferDuration
    {
      RecorderStatus(recordingId, incidentId, isRecording, startTime, |buffer|, bufferDuration)
    }
  }

  /** The recorders of the active incidents. `Repr` holds the registry and
      recorders (every one it has stored), and no other kind of object. */
  class BlackBoxRegistry {
    var recorders: map<string, BlackBoxRecorder>
    ghost var Repr: set<object>

    ghost predicate Valid()
      reads this, Repr
    {
      && this in Repr
      && (forall o: object :: o in Repr ==> o == this || o is BlackBoxRecorder)
      && (forall id :: id in recorders ==> recorders[id] in Repr && recorders[id].Valid())
    }

    constructor ()
      ensures Valid() && fresh(Repr) && recorders == map[]
    {
      recorders := map[];
      Repr := {this};
    }

    /** `start_black_box_recording`: a new 60-second recorder, started and
        stored under the id, replacing any earlier one. */
    method StartBlackBoxRecording(id: string, now: DateTime, nowSeconds: int) returns (r: BlackBoxRecorder)
      requires Valid() && ValidDateTime(now)
      modifies this
      ensures Valid() && Repr == old(Repr) + {r}
      ensures fresh(r) && recorders == old(recorders)[id := r]
      ensures r.isRecording && r.incidentId == id && r.bufferDuration == 60 && r.buffer == []
      ensures r.startTime == Some(nowSeconds) && r.nextChunk == 0
    {
      r := new BlackBoxRecorder(id, 60, now);
      recorders := recorders[id := r];
      Repr := Repr + {r};
      var _ := r.StartRecording(nowSeconds);
    }

    /** `stop_black_box_recording`: nothing for an unknown id; otherwise the
        recorder is stopped and removed, so a second call finds nothing. The
        summary reports the recorder's id, start, duration and the chunks
        it holds; no other recorder is touched. */
    method StopBlackBoxRecording(id: string, now: int) returns (s: Option<StopSummary>)
      requires Valid()
      modifies this, if id in recorders then {recorders[id]} else {}
      ensures Valid() && Repr == old(Repr)
      ensures id !in old(recorders) ==> s.None? && recorders == old(recorders)
      ensures id in old(recorders) ==> s.Some? && recorders == old(recorders) - {id}
      ensures id in old(recorders) ==> (s.value.Summary? <==> old(recorders[id].isRecording))
      ensures id in old(recorders) ==> !old(recorders)[id].isRecording
      ensures id in old(recorders) ==>
        var rec := old(recorders)[id];
        && rec.buffer == old(rec.buffer) && rec.startTime == old(rec.startTime)
        && rec.recordingId == old(rec.recordingId) && rec.incidentId == old(rec.incidentId)
        && rec.bufferDuration == old(rec.bufferDuration)
        && (s.value.Summary? ==>
              && old(rec.startTime).Some?
              && s.value == Summary(old(rec.recordingId), old(rec.incidentId), old(rec.startTime), now,
                                    now - old(rec.startTime).value, |old(rec.buffer)|, old(rec.bufferDuration)))
    {
      if id !in recorders {
        return None;
      }
      var recorder := recorders[id];
      var summary := recorder.StopRecording(now);
      recorders := recorders - {id};
      return Some(summary);
    }

    function GetRecorder(id: string): (r: Option<BlackBoxRecorder>)
      reads this
      ensures r.Some? <==> id in recorders
      ensures r.Some? ==> r.value == recorders[id]
    {
      if id in recorders then Some(recorders[id]) else None
    }
  }
}
