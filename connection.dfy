/** One connection as a sequence of whole operations on its NetworkAudioStream, in any
    order the reader thread, the generator, the response loop and socket_stream may take
    them (audio_stream_to_asr.py:48-121, 137-191, 220-242), and what holds in every state
    such a sequence reaches from __init__. */
module Connection {
  import opened Chunks
  import opened Bridging
  import opened Session
  import opened Generator
  import opened Responses
  import opened Restart

  /** __enter__, __exit__, fill_buffer, one next() on the generator, one response of
      listen_print_loop, the start of a session (line 221), and the restart (lines 232-242). */
  datatype Op = Open | Close | Receive(data: Chunk) | NextRequest | Respond(e: Event) | StartSession | EndSession

  /** One operation; a pull on an open stream with an empty queue is blocked and changes
      nothing. `intended` selects IntendedStep for responses instead of the code as written. */
  function Apply(s: StreamState, op: Op, intended: bool): StreamState
  {
    match op
    case Open => Enter(s)
    case Close => Exit(s)
    case Receive(data) => Fill(s, data)
    case NextRequest => if s.closed || s.buff != [] then Pull(s).state else s
    case Respond(e) => if intended then IntendedStep(s, e).state else Step(s, e).state
    case StartSession => BeginSession(s)
    case EndSession => Rotate(s).state
  }

  /** The operations applied in order. */
  function Run(s: StreamState, ops: seq<Op>, intended: bool): StreamState
    decreases |ops|
  {
    if ops == [] then s else Run(Apply(s, ops[0], intended), ops[1..], intended)
  }

  /** The number of restarts in a sequence of operations. */
  function Restarts(ops: seq<Op>): nat
    decreases |ops|
  {
    if ops == [] then 0 else (if ops[0].EndSession? then 1 else 0) + Restarts(ops[1..])
  }

  /** One operation moves the restart counter only at a restart, by one. */
  lemma ApplyCountsRestarts(s: StreamState, op: Op, intended: bool)
    ensures Apply(s, op, intended).restartCounter == s.restartCounter + (if op.EndSession? then 1 else 0)
  {
    match op
    case NextRequest =>
    case Respond(e) =>
    case EndSession =>
    case _ =>
  }

  /** restart_counter counts the restarts exactly. */
  lemma {:induction false} RestartCounterCountsRestarts(s: StreamState, ops: seq<Op>, intended: bool)
    ensures Run(s, ops, intended).restartCounter == s.restartCounter + Restarts(ops)
    decreases |ops|
  {
    if ops != [] {
      ApplyCountsRestarts(s, ops[0], intended);
      RestartCounterCountsRestarts(Apply(s, ops[0], intended), ops[1..], intended);
    }
  }

  /** Neither the final end time nor the final request end time is ever anything but 0. */
  predicate FinalEndsUnrecorded(s: StreamState)
  {
    s.isFinalEndTime == 0 && s.finalRequestEndTime == 0
  }

  /** As written, no single operation records a final end time. */
  lemma ApplyAsWrittenLeavesFinalEnds(s: StreamState, op: Op)
    requires FinalEndsUnrecorded(s)
    ensures FinalEndsUnrecorded(Apply(s, op, false))
  {
    match op
    case NextRequest =>
    case Respond(e) =>
    case EndSession =>
    case _ =>
  }

  /** As written, no sequence of operations records a final end time. */
  lemma {:induction false} AsWrittenNeverRecordsFinalEnds(s: StreamState, ops: seq<Op>)
    requires FinalEndsUnrecorded(s)
    ensures FinalEndsUnrecorded(Run(s, ops, false))
    decreases |ops|
  {
    if ops != [] {
      ApplyAsWrittenLeavesFinalEnds(s, ops[0]);
      AsWrittenNeverRecordsFinalEnds(Apply(s, ops[0], false), ops[1..]);
    }
  }

  /** Consequence of the crash at line 174: in every state a connection reaches from
      __init__, the bridging replay skips nothing, resends the whole previous session and
      sets the offset to the full limit. */
  lemma AsWrittenReplaysWholeSession(now: int, ops: seq<Op>)
    ensures var s := Run(Initial(now), ops, false);
      s.newStream && s.lastAudioInput != [] ==>
        BridgeReplay(s).replay == s.lastAudioInput && BridgeReplay(s).state.bridgingOffset == STREAMING_LIMIT
  {
    AsWrittenNeverRecordsFinalEnds(Initial(now), ops);
    var s := Run(Initial(now), ops, false);
    if s.newStream && s.lastAudioInput != [] {
      var k := |s.lastAudioInput|;
      Rounding.RoundHalfEvenExact(0, STREAMING_LIMIT);
      Rounding.RoundHalfEvenExact(STREAMING_LIMIT, k);
    }
  }

  /** The recorded times are never negative. */
  predicate TimesNonNegative(s: StreamState)
  {
    s.resultEndTime >= 0 && s.isFinalEndTime >= 0 && s.finalRequestEndTime >= 0
  }

  /** No single operation, with either step, makes a recorded time negative. */
  lemma ApplyKeepsTimesNonNegative(s: StreamState, op: Op, intended: bool)
    requires TimesNonNegative(s)
    ensures TimesNonNegative(Apply(s, op, intended))
  {
    match op
    case NextRequest =>
    case Respond(e) =>
      if intended {
        assert TimesNonNegative(IntendedStep(s, e).state);
      } else {
        assert TimesNonNegative(Step(s, e).state);
      }
    case EndSession =>
    case _ =>
  }

  /** With either step, every recorded time stays non-negative. */
  lemma {:induction false} TimesStayNonNegative(s: StreamState, ops: seq<Op>, intended: bool)
    requires TimesNonNegative(s)
    ensures TimesNonNegative(Run(s, ops, intended))
    decreases |ops|
  {
    if ops != [] {
      ApplyKeepsTimesNonNegative(s, ops[0], intended);
      TimesStayNonNegative(Apply(s, ops[0], intended), ops[1..], intended);
    }
  }

  /** So in every reachable state the clamped offset lies in [0, final_request_end_time]
      and chunks_from_ms is never negative: the replay is always a genuine tail. */
  lemma ReachableClampInRange(now: int, ops: seq<Op>, intended: bool)
    ensures var s := Run(Initial(now), ops, intended);
      var b := Clamp(s.bridgingOffset, s.finalRequestEndTime);
      && 0 <= b <= s.finalRequestEndTime
      && (s.lastAudioInput != [] ==> ChunksFromMs(s.finalRequestEndTime, b, |s.lastAudioInput|) >= 0)
  {
    TimesStayNonNegative(Initial(now), ops, intended);
  }
}
