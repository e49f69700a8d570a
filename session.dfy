/** The session-continuity state of one NetworkAudioStream (audio_stream_to_asr.py:31-46)
    as a value, and the small state changes of __enter__, __exit__ and fill_buffer. */
module Session {
  import opened Chunks

  /** One field per attribute of NetworkAudioStream that the core reads or writes.
      buff is the ingestion queue (self._buff), front first. */
  datatype StreamState = StreamState(
    buff: seq<Item>,
    closed: bool,
    startTime: int,
    restartCounter: nat,
    audioInput: seq<Item>,
    lastAudioInput: seq<Item>,
    resultEndTime: int,
    isFinalEndTime: int,
    finalRequestEndTime: int,
    bridgingOffset: int,
    lastTranscriptWasFinal: bool,
    newStream: bool)

  /** The state __init__ builds, start_time being the clock reading `now`:
      closed until __enter__, no audio, every time at 0, and a new stream pending. */
  function Initial(now: int): (s: StreamState)
    ensures s.closed && s.newStream && !s.lastTranscriptWasFinal
    ensures s.buff == [] && s.audioInput == [] && s.lastAudioInput == []
    ensures s.startTime == now && s.restartCounter == 0
    ensures s.resultEndTime == 0 && s.isFinalEndTime == 0 && s.finalRequestEndTime == 0 && s.bridgingOffset == 0
  {
    StreamState([], true, now, 0, [], [], 0, 0, 0, 0, false, true)
  }

  /** __enter__: the stream is open. */
  function Enter(s: StreamState): (r: StreamState)
    ensures !r.closed
    // opening touches no other field: the queue and the session bookkeeping stay
    ensures r.(closed := s.closed) == s
  {
    s.(closed := false)
  }

  /** __exit__: the stream is closed and the close sentinel is queued behind everything
      already in the queue, so that a generator blocked on get() wakes up and ends. */
  function Exit(s: StreamState): (r: StreamState)
    ensures r.closed
    // the chunks already queued stay queued, in order, ahead of the sentinel
    ensures |r.buff| == |s.buff| + 1 && r.buff[..|s.buff|] == s.buff && r.buff[|s.buff|] == None
    // so a drain of the queue always reaches a sentinel and stops there
    ensures Drain(r.buff).sawSentinel
    ensures r.(closed := s.closed, buff := s.buff) == s
  {
    var q := s.buff + [None];
    DrainShape(q);
    assert !NoSentinel(q) by {
      assert q[|s.buff|].None?;
    }
    s.(closed := true, buff := q)
  }

  /** fill_buffer: one chunk joins the back of the queue. */
  function Fill(s: StreamState, data: Chunk): (r: StreamState)
    // the chunk joins the back of the queue, behind everything already there
    ensures |r.buff| == |s.buff| + 1 && r.buff[..|s.buff|] == s.buff && r.buff[|s.buff|] == Some(data)
    // nor does a chunk ever stand in for a sentinel
    ensures NoSentinel(s.buff) ==> NoSentinel(r.buff)
    ensures r.(buff := s.buff) == s
  {
    s.(buff := s.buff + [Some(data)])
  }

  /** Closing twice is harmless: the stream stays closed, each close queues one more
      sentinel behind the same chunks, and no other field moves. */
  lemma ExitTwice(s: StreamState)
    ensures Exit(Exit(s)) == s.(closed := true, buff := s.buff + [None, None])
  {
    assert s.buff + [None] + [None] == s.buff + [None, None];
  }
}
