/** The NetworkAudioStream object of audio_stream_to_asr.py (lines 28-121) with its
    fields updated in place, the per-response body of listen_print_loop (lines 137-191)
    and the restart body of socket_stream's loop (lines 220-242), each method proved to
    make exactly the state change its specification function describes. */
module AudioStream {
  import opened Chunks
  import opened Bridging
  import opened Session
  import opened Generator
  import opened Responses
  import opened Restart

  class NetworkAudioStream {
    const rate: int
    const chunkSize: int
    const numChannels: int

    var buff: seq<Item>
    var closed: bool
    var startTime: int
    var restartCounter: nat
    var audioInput: seq<Item>
    var lastAudioInput: seq<Item>
    var resultEndTime: int
    var isFinalEndTime: int
    var finalRequestEndTime: int
    var bridgingOffset: int
    var lastTranscriptWasFinal: bool
    var newStream: bool

    /** The fields as one value. */
    function State(): StreamState
      reads this
    {
      StreamState(buff, closed, startTime, restartCounter, audioInput, lastAudioInput,
                  resultEndTime, isFinalEndTime, finalRequestEndTime, bridgingOffset,
                  lastTranscriptWasFinal, newStream)
    }

    /** __init__, start_time being the clock reading `now` (the socket is not modelled). */
    constructor (rate: int, chunkSize: int, now: int)
      ensures State() == Initial(now)
      ensures this.rate == rate && this.chunkSize == chunkSize && numChannels == 1
    {
      this.rate := rate;
      this.chunkSize := chunkSize;
      numChannels := 1;
      buff := [];
      closed := true;
      startTime := now;
      restartCounter := 0;
      audioInput := [];
      lastAudioInput := [];
      resultEndTime := 0;
      isFinalEndTime := 0;
      finalRequestEndTime := 0;
      bridgingOffset := 0;
      lastTranscriptWasFinal := false;
      newStream := true;
    }

    /** __enter__. */
    method Enter()
      modifies this
      ensures State() == Session.Enter(old(State()))
    {
      closed := false;
    }

    /** __exit__: close, and wake the generator with the sentinel. */
    method Exit()
      modifies this
      ensures State() == Session.Exit(old(State()))
    {
      closed := true;
      buff := buff + [None];
    }

    /** fill_buffer. */
    method FillBuffer(data: Chunk)
      modifies this
      ensures State() == Fill(old(State()), data)
    {
      buff := buff + [Some(data)];
    }

    /** The replay block of generator() (lines 74-96): returns the staged replay. */
    method Bridge() returns (data: seq<Item>)
      modifies this
      ensures State() == BridgeReplay(old(State())).state && data == BridgeReplay(old(State())).replay
    {
      data := [];
      if newStream && |lastAudioInput| > 0 {
        var k := |lastAudioInput|;
        var chunkTime: real := STREAMING_LIMIT as real / k as real;
        if chunkTime != 0.0 {
          if bridgingOffset < 0 {
            bridgingOffset := 0;
          }
          if bridgingOffset > finalRequestEndTime {
            bridgingOffset := finalRequestEndTime;
          }
          var n := ChunksFromMs(finalRequestEndTime, bridgingOffset, k);
          bridgingOffset := NewBridgingOffset(k, n);
          data := CopyTail(lastAudioInput, n);
        }
        newStream := false;
      }
    }

    /** The loop `for i in range(n, len(last))` appending to data. */
    static method CopyTail(last: seq<Item>, n: int) returns (data: seq<Item>)
      requires n >= 0
      ensures data == Replay(last, n)
    {
      data := [];
      var i := n;
      while i < |last|
        invariant n <= i
        invariant n < |last| ==> i <= |last| && data == last[n..i]
        invariant n >= |last| ==> i == n && data == []
      {
        data := data + [last[i]];
        i := i + 1;
      }
    }

    /** The non-blocking drain of generator() (lines 108-118): pop until the queue is
        empty or a sentinel comes up, recording each chunk in this session's audio. */
    method DrainQueue() returns (taken: seq<Item>, sawSentinel: bool)
      modifies this
      ensures Drained(taken, buff, sawSentinel) == Drain(old(buff))
      ensures State() == old(State()).(buff := buff, audioInput := old(audioInput) + taken)
    {
      taken, sawSentinel := [], false;
      ghost var queued, i := buff, 0;
      while true
        invariant 0 <= i <= |queued| && buff == queued[i..] && taken == queued[..i] && NoSentinel(taken)
        invariant State() == old(State()).(buff := buff, audioInput := old(audioInput) + taken)
        decreases |buff|
      {
        if buff == [] {
          assert taken == queued;
          DrainWithoutSentinel(queued);
          break;
        }
        var chunk := buff[0];
        buff := buff[1..];
        if chunk.None? {
          sawSentinel := true;
          DrainStopsAtFirstSentinel(queued, i);
          return;
        }
        audioInput := audioInput + [chunk];
        taken := taken + [chunk];
        i := i + 1;
      }
    }

    /** The blocking get of line 101 and the drain that follows it: returns the chunks this
        pull keeps, and whether a sentinel ended the generator. */
    method GetAndDrainQueue() returns (live: seq<Item>, ended: bool)
      requires buff != []
      modifies this
      ensures Got(State(), live, ended) == GetAndDrain(old(State()))
    {
      var chunk := buff[0];
      buff := buff[1..];
      audioInput := audioInput + [chunk];
      if chunk.None? {
        return [], true;
      }
      var taken;
      taken, ended := DrainQueue();
      live := [chunk] + taken;
    }

    /** One next() on generator(). The blocking get() needs an item in the queue
        whenever the stream is open. */
    method Generate() returns (out: PullOutcome)
      requires closed || buff != []
      modifies this
      ensures State() == Pull(old(State())).state && out == Pull(old(State())).outcome
    {
      if closed {
        return Finished;
      }
      var replay := Bridge();
      var live, ended := GetAndDrainQueue();
      if ended {
        return Finished;
      }
      var parts := Present(replay + live);
      if parts.None? {
        return Raised;
      }
      return Batch(parts.value);
    }

    /** The body of `for response in responses` for one event, with the bare except.
        Returns whether the loop goes on, and the line printed about the transcript. */
    method RespondTo(e: Event) returns (more: bool, printed: Option<Printed>)
      modifies this
      ensures State() == Step(old(State()), e).state
      ensures more == Step(old(State()), e).more && printed == Step(old(State()), e).printed
    {
      match e
      case BackendError =>
        closed := true;
        return false, None;
      case Received(response, now, resetNow) =>
        if now - startTime > STREAMING_LIMIT {
          startTime := resetNow;
          return false, None;
        }
        if !response.hasResults || !response.hasAlternatives {
          return true, None;
        }
        var resultSeconds, resultMicros := 0, 0;
        if response.seconds != 0 {
          resultSeconds := response.seconds;
        }
        if response.micros != 0 {
          resultMicros := response.micros;
        }
        resultEndTime := resultSeconds * 1000 + resultMicros / 1000;
        if response.isFinal {
          // the print of line 174 raises TypeError before anything else of the branch runs
          closed := true;
          return false, None;
        }
        lastTranscriptWasFinal := false;
        return true, Some(InterimLine(response.transcript));
    }

    /** listen_print_loop over the events of one session. */
    method ListenPrintLoop(events: seq<Event>)
      modifies this
      ensures State() == Loop(old(State()), events)
    {
      for i := 0 to |events|
        invariant Loop(old(State()), events) == Loop(State(), events[i..])
      {
        assert events[i..][0] == events[i] && events[i..][1..] == events[i + 1..];
        var more, _ := RespondTo(events[i]);
        if !more {
          return;
        }
      }
    }

    /** Line 221, before each session. */
    method BeginSession()
      modifies this
      ensures State() == Restart.BeginSession(old(State()))
    {
      audioInput := [];
    }

    /** Lines 232-242, after listen_print_loop returns. forcedFinal is the write of 'final-'. */
    method EndSession() returns (forcedFinal: bool)
      modifies this
      ensures State() == Rotate(old(State())).state && forcedFinal == Rotate(old(State())).forcedFinal
    {
      if resultEndTime > 0 {
        finalRequestEndTime := isFinalEndTime;
      }
      resultEndTime := 0;
      lastAudioInput := audioInput;
      audioInput := [];
      restartCounter := restartCounter + 1;
      forcedFinal := !lastTranscriptWasFinal;
      newStream := true;
    }
  }
}
