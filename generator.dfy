/** One pull of NetworkAudioStream.generator (audio_stream_to_asr.py:67-121): the
    bridging replay on the first pull of a session, then one blocking get followed
    by a non-blocking drain of the ingestion queue. */
module Generator {
  import opened Chunks
  import opened Bridging
  import opened Session

  /** What one next() on the generator produces: the list b''.join turns into the
      request's bytes, the end of the generator (the `while not self.closed` test fails
      or a sentinel is taken), or the TypeError b''.join raises on a None element. */
  datatype PullOutcome = Batch(parts: seq<Chunk>) | Finished | Raised

  datatype Pulled = Pulled(state: StreamState, outcome: PullOutcome)

  datatype Bridged = Bridged(state: StreamState, replay: seq<Item>)

  /** The replay block, lines 74-96: on the first pull of a new session with a
      non-empty previous session, clamp the offset, skip chunks_from_ms chunks, store
      the new offset and stage the rest of the previous session; clear new_stream. */
  function BridgeReplay(s: StreamState): (r: Bridged)
    // only the offset and the new-session flag change
    ensures r.state == s.(bridgingOffset := r.state.bridgingOffset, newStream := r.state.newStream)
    // new_stream is cleared exactly when the block runs
    ensures r.state.newStream <==> s.newStream && s.lastAudioInput == []
    // nothing is replayed outside the first pull of a session that follows a non-empty one
    ensures r.replay != [] ==> s.newStream && s.lastAudioInput != []
    // what is replayed is a tail of the previous session, in its order
    ensures |r.replay| <= |s.lastAudioInput|
    ensures r.replay == s.lastAudioInput[|s.lastAudioInput| - |r.replay|..]
  {
    if s.newStream && s.lastAudioInput != [] then
      var k := |s.lastAudioInput|;
      var b := Clamp(s.bridgingOffset, s.finalRequestEndTime);
      var n := ChunksFromMs(s.finalRequestEndTime, b, k);
      var replay := Replay(s.lastAudioInput, n);
      assert n < k ==> replay == s.lastAudioInput[k - |replay|..];
      Bridged(s.(bridgingOffset := NewBridgingOffset(k, n), newStream := false), replay)
    else
      Bridged(s, [])
  }

  /** After the blocking get: the new state, the queue items the pull keeps, and whether
      it ended the generator at a sentinel. */
  datatype Got = Got(state: StreamState, live: seq<Item>, ended: bool)

  /** The blocking get of line 101 and the drain of lines 108-118 on the bridged state:
      each item taken, including a sentinel met by the get, is recorded in this session's audio. */
  function GetAndDrain(t: StreamState): (g: Got)
    requires t.buff != []
    // only the queue and this session's audio change
    ensures g.state == t.(buff := g.state.buff, audioInput := g.state.audioInput)
  {
    var head := t.buff[0];
    if head.None? then Got(t.(buff := t.buff[1..], audioInput := t.audioInput + [head]), [], true)
    else
      var d := Drain(t.buff[1..]);
      Got(t.(buff := d.rest, audioInput := t.audioInput + [head] + d.taken), [head] + d.taken, d.sawSentinel)
  }

  /** One pull, lines 70-121. The blocking get() is modelled by requiring an item in
      the queue whenever the stream is open. */
  function Pull(s: StreamState): (r: Pulled)
    requires s.closed || s.buff != []
    // a closed stream ends the generator and changes nothing
    ensures s.closed ==> r == Pulled(s, Finished)
    // the restart counter, clock and response fields are not the generator's
    ensures r.state.lastAudioInput == s.lastAudioInput && r.state.closed == s.closed
    ensures r.state.restartCounter == s.restartCounter && r.state.startTime == s.startTime
    ensures r.state.finalRequestEndTime == s.finalRequestEndTime && r.state.isFinalEndTime == s.isFinalEndTime
    ensures r.state.resultEndTime == s.resultEndTime
    ensures r.state.lastTranscriptWasFinal == s.lastTranscriptWasFinal
  {
    if s.closed then Pulled(s, Finished)
    else
      var bridged := BridgeReplay(s);
      var g := GetAndDrain(bridged.state);
      if g.ended then Pulled(g.state, Finished)
      else
        match Present(bridged.replay + g.live)
        case None => Pulled(g.state, Raised)
        case Some(parts) => Pulled(g.state, Batch(parts))
  }

  /** A pull on an open stream whose queue holds no sentinel empties the queue and records
      exactly the queued chunks, in order, as this session's audio. */
  lemma PullWithoutSentinelState(s: StreamState)
    requires !s.closed && s.buff != [] && NoSentinel(s.buff)
    ensures Pull(s).state == BridgeReplay(s).state.(buff := [], audioInput := s.audioInput + s.buff)
  {
    var q := s.buff;
    var t := BridgeReplay(s).state;
    assert t.buff == q && t.audioInput == s.audioInput;
    DrainTail(q);
    assert s.audioInput + [q[0]] + q[1..] == s.audioInput + q;
    assert GetAndDrain(t).state == t.(buff := [], audioInput := s.audioInput + q);
  }

  /** ... and yields the replay followed by every queued chunk, in order (or raises when the
      replay holds a sentinel). */
  lemma PullWithoutSentinelOutcome(s: StreamState)
    requires !s.closed && s.buff != [] && NoSentinel(s.buff)
    ensures var replay := BridgeReplay(s).replay;
      && (NoSentinel(replay) ==> Pull(s).outcome == Batch(Present(replay).value + Present(s.buff).value))
      && (!NoSentinel(replay) ==> Pull(s).outcome == Raised)
  {
    var replay := BridgeReplay(s).replay;
    var t := BridgeReplay(s).state;
    var q := s.buff;
    assert t.buff == q;
    DrainTail(q);
    assert GetAndDrain(t).live == q && !GetAndDrain(t).ended;
    if NoSentinel(replay) {
      PresentAppend(replay, q);
    } else {
      assert !NoSentinel(replay + q) by {
        var i :| 0 <= i < |replay| && replay[i].None?;
        assert (replay + q)[i] == replay[i];
      }
    }
  }

  /** Behind a chunk at the front of a sentinel-free queue, the drain takes the rest. */
  lemma DrainTail(q: seq<Item>)
    requires q != [] && NoSentinel(q)
    ensures q[0].Some? && Drain(q[1..]) == Drained(q[1..], [], false) && [q[0]] + q[1..] == q
  {
    assert q[0].Some?;
    assert NoSentinel(q[1..]) by {
      forall i | 0 <= i < |q| - 1 ensures q[1..][i].Some? { assert q[1..][i] == q[i + 1]; }
    }
    DrainWithoutSentinel(q[1..]);
  }

  /** Every yielded batch starts with the replayed chunks and holds at least one chunk
      taken from the queue, so its bytes put the replayed audio before any live audio. */
  lemma BatchShape(s: StreamState)
    requires !s.closed && s.buff != [] && Pull(s).outcome.Batch?
    ensures var parts := Pull(s).outcome.parts; var replay := BridgeReplay(s).replay;
      && NoSentinel(replay)
      && |parts| > |replay|
      && parts[..|replay|] == Present(replay).value
      && Concat(parts) == Concat(Present(replay).value) + Concat(parts[|replay|..])
  {
    var parts := Pull(s).outcome.parts;
    var replay := BridgeReplay(s).replay;
    var live := GetAndDrain(BridgeReplay(s).state).live;
    assert Present(replay + live) == Some(parts) && live != [];
    NoSentinelSplit(replay, live);
    PresentAppend(replay, live);
    var pr, pl := Present(replay).value, Present(live).value;
    assert parts == pr + pl;
    assert parts[..|replay|] == pr && parts[|replay|..] == pl;
    ConcatAppend(pr, pl);
  }

  /** A sentinel at the front of the queue ends the generator: it is appended to this
      session's audio (line 102 runs before the test), nothing is yielded and the staged
      replay is dropped, though the offset and the new-session flag keep their update. */
  lemma PullSentinelFirst(s: StreamState)
    requires !s.closed && s.buff != [] && s.buff[0].None?
    ensures Pull(s) == Pulled(BridgeReplay(s).state.(buff := s.buff[1..], audioInput := s.audioInput + [None]), Finished)
  {
  }

  /** A sentinel met during the drain ends the generator too: the chunks drained before it
      are in this session's audio, the sentinel is not, the batch is never yielded, and the
      items behind the sentinel stay queued. */
  lemma PullSentinelInDrain(s: StreamState, k: nat)
    requires !s.closed && 0 < k < |s.buff| && s.buff[k].None? && NoSentinel(s.buff[..k])
    ensures Pull(s) == Pulled(BridgeReplay(s).state.(buff := s.buff[k + 1..], audioInput := s.audioInput + s.buff[..k]), Finished)
  {
    var q := s.buff;
    var t := BridgeReplay(s).state;
    assert t.buff == q && t.audioInput == s.audioInput;
    assert q[0] == q[..k][0];
    assert q[1..][..k - 1] == q[1..k];
    var between := q[1..k];
    assert NoSentinel(between) by {
      forall i | 0 <= i < k - 1 ensures between[i].Some? { assert between[i] == q[..k][i + 1]; }
    }
    DrainStopsAtFirstSentinel(q[1..], k - 1);
    assert q[1..][k..] == q[k + 1..];
    assert [q[0]] + q[1..k] == q[..k];
    assert s.audioInput + [q[0]] + q[1..k] == s.audioInput + q[..k];
    assert GetAndDrain(t) == Got(t.(buff := q[k + 1..], audioInput := s.audioInput + q[..k]), q[..k], true);
  }
}
