/** The per-response step of listen_print_loop (audio_stream_to_asr.py:124-191), over an
    abstract response record and injected clock readings, and the loop over a session's
    responses. Step follows the code as written; IntendedStep is the same step with the
    final-result branch as its authors evidently meant it. */
module Responses {
  import opened Chunks
  import opened Bridging
  import opened Keywords
  import opened Session

  /** The fields of a streaming response the loop reads: whether it has results, whether
      the first result has alternatives, the top transcript, the result's end time as
      seconds and microseconds, and the is_final flag. */
  datatype Response = Response(
    hasResults: bool,
    hasAlternatives: bool,
    transcript: string,
    seconds: nat,
    micros: nat,
    isFinal: bool)

  /** One turn of `for response in responses`: a response, with the clock read for the
      limit test (line 142) and read again for the reset (line 143); or the response
      iterator raising (a backend error), which the bare except catches. */
  datatype Event = Received(response: Response, now: int, resetNow: int) | BackendError

  /** What a step prints about the transcript. */
  datatype Printed = InterimLine(transcript: string) | FinalLine(correctedTime: int, transcript: string)

  /** The state after a step, whether the loop goes on to the next response, and the line printed. */
  datatype Stepped = Stepped(state: StreamState, more: bool, printed: Option<Printed>)

  /** result_end_time in whole milliseconds: int() of seconds * 1000 + micros / 1000. */
  function ResultEndTime(seconds: nat, micros: nat): (ms: nat)
    ensures 1000 * ms <= 1000000 * seconds + micros < 1000 * (ms + 1)
  {
    seconds * 1000 + micros / 1000
  }

  /** corrected_time (lines 167-168): a result's end time placed on one clock for the whole
      connection, each earlier session counted as STREAMING_LIMIT ms and the replayed
      audio at the start of this session taken off. */
  function CorrectedTime(resultEnd: int, offset: int, restarts: int): (t: int)
    // with an offset of at most one session, the result lands in the window of the current
    // session or, for audio replayed from it, of the previous one
    ensures 0 <= offset <= STREAMING_LIMIT ==>
      resultEnd + STREAMING_LIMIT * (restarts - 1) <= t <= resultEnd + STREAMING_LIMIT * restarts
  {
    resultEnd - offset + STREAMING_LIMIT * restarts
  }

  /** The response carries a transcript the loop looks at (lines 146-152). */
  predicate HasTranscript(r: Response)
  {
    r.hasResults && r.hasAlternatives
  }

  /** The session limit test of line 142 fires for this event. */
  predicate OverLimit(s: StreamState, e: Event)
  {
    e.Received? && e.now - s.startTime > STREAMING_LIMIT
  }

  /** The event reaches the is_final test of line 172 with a final result. */
  predicate ReachesFinal(s: StreamState, e: Event)
  {
    e.Received? && !OverLimit(s, e) && HasTranscript(e.response) && e.response.isFinal
  }

  /** One response, as the code is written. On a final result, line 174 evaluates
      `'Final-' - + str(corrected_time) + ...`: unary + on a str raises TypeError, the bare
      except sets closed and the loop ends, so lines 176-184 never run. */
  function Step(s: StreamState, e: Event): (r: Stepped)
    // fields the loop never writes
    ensures r.state.buff == s.buff && r.state.audioInput == s.audioInput && r.state.lastAudioInput == s.lastAudioInput
    ensures r.state.restartCounter == s.restartCounter && r.state.bridgingOffset == s.bridgingOffset
    ensures r.state.finalRequestEndTime == s.finalRequestEndTime && r.state.newStream == s.newStream
    // as written, a final result's end time is never recorded
    ensures r.state.isFinalEndTime == s.isFinalEndTime
    // the loop stops at a backend error, at the limit, or at any final result
    ensures !r.more <==> e.BackendError? || OverLimit(s, e) || ReachesFinal(s, e)
    // and the stream is closed by an error or a final result, never by the limit
    ensures r.state.closed <==> s.closed || e.BackendError? || ReachesFinal(s, e)
    // a backend error only closes the stream, and nothing is printed
    ensures e.BackendError? ==> r == Stepped(s.(closed := true), false, None)
    // past the limit only the session clock is reset, from the second clock reading
    ensures OverLimit(s, e) ==> r == Stepped(s.(startTime := e.resetNow), false, None)
    // a response without a transcript is skipped and changes nothing
    ensures e.Received? && !OverLimit(s, e) && !HasTranscript(e.response) ==> r == Stepped(s, true, None)
    // an interim result records its end time, marks the transcript as not final and is printed
    ensures e.Received? && !OverLimit(s, e) && HasTranscript(e.response) && !e.response.isFinal ==>
      r == Stepped(s.(resultEndTime := ResultEndTime(e.response.seconds, e.response.micros),
                      lastTranscriptWasFinal := false), true, Some(InterimLine(e.response.transcript)))
  {
    match e
    case BackendError => Stepped(s.(closed := true), false, None)
    case Received(resp, now, resetNow) =>
      if now - s.startTime > STREAMING_LIMIT then Stepped(s.(startTime := resetNow), false, None)
      else if !resp.hasResults || !resp.hasAlternatives then Stepped(s, true, None)
      else
        var t := s.(resultEndTime := ResultEndTime(resp.seconds, resp.micros));
        if resp.isFinal then Stepped(t.(closed := true), false, None)
        else Stepped(t.(lastTranscriptWasFinal := false), true, Some(InterimLine(resp.transcript)))
  }

  /** One response with the print of line 174 written as evidently intended,
      'Final-' + str(corrected_time) + ': ' + transcript: a final result records its end
      time, marks the transcript final, prints it on the connection-wide clock, and an
      "exit" or "quit" in it closes the stream. */
  function IntendedStep(s: StreamState, e: Event): (r: Stepped)
    // fields the loop never writes
    ensures r.state.buff == s.buff && r.state.audioInput == s.audioInput && r.state.lastAudioInput == s.lastAudioInput
    ensures r.state.restartCounter == s.restartCounter && r.state.bridgingOffset == s.bridgingOffset
    ensures r.state.finalRequestEndTime == s.finalRequestEndTime && r.state.newStream == s.newStream
    // a backend error only closes the stream, and nothing is printed
    ensures e.BackendError? ==> r == Stepped(s.(closed := true), false, None)
    ensures ReachesFinal(s, e) ==>
      var resp := e.response;
      var endTime := ResultEndTime(resp.seconds, resp.micros);
      && r.state.resultEndTime == endTime && r.state.isFinalEndTime == endTime
      && r.state.lastTranscriptWasFinal
      && (r.state.closed <==> s.closed || IsExitCommand(resp.transcript))
      && (r.more <==> !IsExitCommand(resp.transcript))
      && r.printed == Some(FinalLine(CorrectedTime(endTime, s.bridgingOffset, s.restartCounter), resp.transcript))
      && r.state == s.(resultEndTime := endTime, isFinalEndTime := endTime,
                       lastTranscriptWasFinal := true, closed := r.state.closed)
  {
    match e
    case BackendError => Stepped(s.(closed := true), false, None)
    case Received(resp, now, resetNow) =>
      if now - s.startTime > STREAMING_LIMIT then Stepped(s.(startTime := resetNow), false, None)
      else if !resp.hasResults || !resp.hasAlternatives then Stepped(s, true, None)
      else
        var endTime := ResultEndTime(resp.seconds, resp.micros);
        var t := s.(resultEndTime := endTime);
        var corrected := CorrectedTime(endTime, t.bridgingOffset, t.restartCounter);
        if resp.isFinal then
          var f := t.(isFinalEndTime := endTime, lastTranscriptWasFinal := true);
          var line := Some(FinalLine(corrected, resp.transcript));
          if IsExitCommand(resp.transcript) then Stepped(f.(closed := true), false, line)
          else Stepped(f, true, line)
        else Stepped(t.(lastTranscriptWasFinal := false), true, Some(InterimLine(resp.transcript)))
  }

  /** The two steps differ only on a final result: on every other event they agree. */
  lemma StepsAgreeOffFinal(s: StreamState, e: Event)
    requires !ReachesFinal(s, e)
    ensures Step(s, e) == IntendedStep(s, e)
  {
  }

  /** As written, a final result closes the stream and ends the loop without recording its
      end time or marking the transcript final, and without printing it; as intended it
      records the end time, and the stream stays open unless the transcript says exit or quit. */
  lemma FinalResultCrashes(s: StreamState, e: Event)
    requires ReachesFinal(s, e)
    ensures var r := Step(s, e);
      && r.state == s.(resultEndTime := ResultEndTime(e.response.seconds, e.response.micros), closed := true)
      && !r.more && r.printed == None
    ensures !s.closed && !IsExitCommand(e.response.transcript) ==>
      !IntendedStep(s, e).state.closed && IntendedStep(s, e).state.isFinalEndTime == Step(s, e).state.resultEndTime
  {
  }

  /** A concrete final result ("hello", ending at 1.5 s) on an open stream: as written
      the stream is closed and is_final_end_time stays 0; as intended it stays open with
      is_final_end_time = 1500. */
  lemma FinalHelloExample(s: StreamState)
    requires !s.closed && s.startTime == 0 && s.isFinalEndTime == 0
    ensures var e := Received(Response(true, true, "hello", 1, 500000, true), 1000, 1000);
      && Step(s, e).state.closed && Step(s, e).state.isFinalEndTime == 0
      && !IntendedStep(s, e).state.closed && IntendedStep(s, e).state.isFinalEndTime == 1500
  {
    var e := Received(Response(true, true, "hello", 1, 500000, true), 1000, 1000);
    assert !IsExitCommand("hello") by {
      assert !SearchFrom("hello", 0);
    }
  }

  /** listen_print_loop over the events of one session, as written: step until a step
      ends the loop or the responses run out. */
  function Loop(s: StreamState, events: seq<Event>): StreamState
    decreases |events|
  {
    if events == [] then s
    else
      var r := Step(s, events[0]);
      if r.more then Loop(r.state, events[1..]) else r.state
  }

  /** Over a whole session the loop touches only the clock, result_end_time,
      last_transcript_was_final and closed: the audio, the queue, the restart count and all
      the bridging fields are as they were, and is_final_end_time is never written. */
  lemma {:induction false} LoopFrame(s: StreamState, events: seq<Event>)
    ensures var t := Loop(s, events);
      t == s.(startTime := t.startTime, resultEndTime := t.resultEndTime,
              lastTranscriptWasFinal := t.lastTranscriptWasFinal, closed := t.closed)
    decreases |events|
  {
    if events != [] {
      var r := Step(s, events[0]);
      if r.more {
        LoopFrame(r.state, events[1..]);
      }
    }
  }

  /** The loop never reopens a stream; and an open stream is still open afterwards unless
      some event was a backend error or a final result. */
  lemma {:induction false} LoopCloses(s: StreamState, events: seq<Event>)
    ensures s.closed ==> Loop(s, events).closed
    ensures Loop(s, events).closed && !s.closed ==>
      exists i :: 0 <= i < |events| && (events[i].BackendError? || ReachesFinal(Loop(s, events[..i]), events[i]))
    decreases |events|
  {
    if events != [] {
      var r := Step(s, events[0]);
      if !r.more {
        assert Loop(s, events[..0]) == s by { assert events[..0] == []; }
      } else {
        LoopCloses(r.state, events[1..]);
        if Loop(s, events).closed && !s.closed {
          var i :| 0 <= i < |events[1..]| &&
            (events[1..][i].BackendError? || ReachesFinal(Loop(r.state, events[1..][..i]), events[1..][i]));
          LoopPrefix(s, events, i);
          assert events[i + 1] == events[1..][i];
        }
      }
    }
  }

  /** The state the loop has reached before event i + 1, when the first event let it go on. */
  lemma LoopPrefix(s: StreamState, events: seq<Event>, i: nat)
    requires i + 1 < |events| && Step(s, events[0]).more
    ensures Loop(s, events[..i + 1]) == Loop(Step(s, events[0]).state, events[1..][..i])
  {
    var p := events[..i + 1];
    assert p != [] && p[0] == events[0];
    assert p[1..] == events[1..][..i];
  }
}
