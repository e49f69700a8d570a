/** The restart bookkeeping of socket_stream's `while not stream.closed` loop
    (audio_stream_to_asr.py:220-242): clearing the session's audio before a session, and
    carrying the state into the next session after listen_print_loop returns. */
module Restart {
  import opened Chunks
  import opened Bridging
  import opened Session
  import opened Generator
  import opened Responses

  /** The state for the next session, and whether the forced-final marker 'final-' is written. */
  datatype Rotated = Rotated(state: StreamState, forcedFinal: bool)

  /** Line 221: each session starts recording its audio afresh. */
  function BeginSession(s: StreamState): (r: StreamState)
    // a session records its own audio from empty; the previous session's is kept for the replay
    ensures r.audioInput == [] && r.lastAudioInput == s.lastAudioInput
    ensures r.(audioInput := s.audioInput) == s
  {
    s.(audioInput := [])
  }

  /** Lines 232-242, after the response loop of a session has returned. */
  function Rotate(s: StreamState): (r: Rotated)
    // the last final result's end time is carried only if the session produced a result
    ensures r.state.finalRequestEndTime == if s.resultEndTime > 0 then s.isFinalEndTime else s.finalRequestEndTime
    ensures r.state.resultEndTime == 0
    // the audio of the session that ended becomes the previous session's, and the next starts empty
    ensures r.state.lastAudioInput == s.audioInput && r.state.audioInput == []
    ensures r.state.restartCounter == s.restartCounter + 1
    ensures r.state.newStream
    // the marker stands in for a final result the session did not deliver
    ensures r.forcedFinal <==> !s.lastTranscriptWasFinal
    // nothing else moves
    ensures r.state == s.(finalRequestEndTime := r.state.finalRequestEndTime, resultEndTime := 0,
                          lastAudioInput := s.audioInput, audioInput := [],
                          restartCounter := s.restartCounter + 1, newStream := true)
  {
    var carried := if s.resultEndTime > 0 then s.(finalRequestEndTime := s.isFinalEndTime) else s;
    var t := carried.(resultEndTime := 0, lastAudioInput := carried.audioInput, audioInput := []);
    Rotated(t.(restartCounter := t.restartCounter + 1, newStream := true), !t.lastTranscriptWasFinal)
  }

  /** What the first pull after a restart replays is a tail of the session that just ended,
      skipping chunks_from_ms of its chunks, computed from the carried end time; a session
      that recorded no audio leaves nothing to replay and the new-session flag set. */
  lemma ReplayAfterRestart(s: StreamState)
    ensures var next := Rotate(s).state;
      var f := next.finalRequestEndTime;
      var bridged := BridgeReplay(next);
      && (s.audioInput == [] ==> bridged.replay == [] && bridged.state.newStream)
      && (s.audioInput != [] ==>
            var n := ChunksFromMs(f, Clamp(s.bridgingOffset, f), |s.audioInput|);
            && n >= 0
            && bridged.replay == Replay(s.audioInput, n)
            && bridged.state.bridgingOffset == NewBridgingOffset(|s.audioInput|, n)
            && !bridged.state.newStream)
  {
  }

  /** Timeline continuity: once a replay has skipped n of the k chunks of the previous
      session and the restart counter stands at r, a result ending t ms into the new session
      gets corrected time STREAMING_LIMIT * (r - 1) + n * (STREAMING_LIMIT / k) + t, to within
      half a millisecond: the point of the previous session where the replayed audio began,
      plus t, each session being taken to span the full limit. */
  lemma TimelineContinuity(s: StreamState, t: int)
    requires s.newStream && s.lastAudioInput != [] && s.restartCounter >= 1
    ensures var k := |s.lastAudioInput|;
      var f := s.finalRequestEndTime;
      var n := ChunksFromMs(f, Clamp(s.bridgingOffset, f), k);
      var after := BridgeReplay(s).state;
      var c := CorrectedTime(t, after.bridgingOffset, after.restartCounter);
      && 2 * (k * (c - STREAMING_LIMIT * (s.restartCounter - 1) - t) - n * STREAMING_LIMIT) <= k
      && 2 * (n * STREAMING_LIMIT - k * (c - STREAMING_LIMIT * (s.restartCounter - 1) - t)) <= k
  {
    var k := |s.lastAudioInput|;
    var f := s.finalRequestEndTime;
    var n := ChunksFromMs(f, Clamp(s.bridgingOffset, f), k);
    var after := BridgeReplay(s).state;
    assert after.bridgingOffset == NewBridgingOffset(k, n) && after.restartCounter == s.restartCounter;
    var c := CorrectedTime(t, after.bridgingOffset, after.restartCounter);
    ContinuityArithmetic(k, n, after.bridgingOffset, t, c, s.restartCounter);
  }

  /** The arithmetic of TimelineContinuity: an offset within half a ms of the duration of
      the k - n replayed chunks turns a corrected time into the start of the replay plus t. */
  lemma ContinuityArithmetic(k: int, n: int, b: int, t: int, c: int, r: int)
    requires 2 * ((k - n) * STREAMING_LIMIT - k * b) <= k && 2 * (k * b - (k - n) * STREAMING_LIMIT) <= k
    requires c + b == t + STREAMING_LIMIT * r
    ensures 2 * (k * (c - STREAMING_LIMIT * (r - 1) - t) - n * STREAMING_LIMIT) <= k
    ensures 2 * (n * STREAMING_LIMIT - k * (c - STREAMING_LIMIT * (r - 1) - t)) <= k
  {
    assert c - STREAMING_LIMIT * (r - 1) - t == STREAMING_LIMIT - b;
    assert k * (STREAMING_LIMIT - b) == k * STREAMING_LIMIT - k * b;
  }
}
