/** The bridging arithmetic of NetworkAudioStream.generator (audio_stream_to_asr.py:74-96):
    which chunks of the previous session are resent at the start of a new session,
    and the bridging offset carried to the next restart. */
module Bridging {
  import opened Rounding
  import opened Chunks

  /** The backend's limit on one streaming session, in milliseconds. */
  const STREAMING_LIMIT := 240000

  /** The two guards on the bridging offset, in the code's order: first raise a
      negative offset to 0, then lower it to the final request end time. */
  function Clamp(offset: int, finalEnd: int): (b: int)
    ensures b <= finalEnd
    ensures finalEnd >= 0 ==> 0 <= b
    ensures 0 <= offset <= finalEnd ==> b == offset
    ensures finalEnd < 0 ==> b == finalEnd
    // line 81 raises a negative offset to 0, line 84 lowers one that is too large
    ensures finalEnd >= 0 && offset < 0 ==> b == 0
    ensures offset > finalEnd ==> b == finalEnd
  {
    var raised := if offset < 0 then 0 else offset;
    if raised > finalEnd then finalEnd else raised
  }

  /** chunks_from_ms: the number of leading chunks of a k-chunk previous session that
      fall before finalEnd - offset ms, each chunk counted as STREAMING_LIMIT / k ms
      (chunk_time), rounded to nearest with ties to even. */
  function ChunksFromMs(finalEnd: int, offset: int, k: int): (n: int)
    requires k > 0
    ensures offset <= finalEnd ==> n >= 0
    ensures IsRounding((finalEnd - offset) * k, STREAMING_LIMIT, n)
  {
    RoundHalfEvenSign((finalEnd - offset) * k, STREAMING_LIMIT);
    RoundHalfEven((finalEnd - offset) * k, STREAMING_LIMIT)
  }

  /** The new bridging offset: the duration, in whole ms, of the k - n chunks that
      follow the skipped ones, at chunk_time = STREAMING_LIMIT / k ms each.
      It is negative exactly when more than k chunks were skipped by more than
      half a millisecond's worth, and otherwise lies in [0, STREAMING_LIMIT]. */
  function NewBridgingOffset(k: int, n: int): (b: int)
    requires k > 0
    ensures IsRounding((k - n) * STREAMING_LIMIT, k, b)
    ensures b < 0 <==> 2 * (n - k) * STREAMING_LIMIT > k
    ensures 0 <= n ==> b <= STREAMING_LIMIT
  {
    RoundHalfEvenSign((k - n) * STREAMING_LIMIT, k);
    var b := RoundHalfEven((k - n) * STREAMING_LIMIT, k);
    assert 0 <= n ==> b <= STREAMING_LIMIT by {
      if 0 <= n {
        RoundHalfEvenMonotone((k - n) * STREAMING_LIMIT, k * STREAMING_LIMIT, k);
        RoundHalfEvenExact(STREAMING_LIMIT, k);
      }
    }
    b
  }

  /** The chunks the loop `for i in range(n, len(last))` appends: the suffix of the
      previous session after its first n chunks, in order; nothing once n reaches its length. */
  function Replay(last: seq<Item>, n: int): (r: seq<Item>)
    requires n >= 0
    ensures |r| == if n < |last| then |last| - n else 0
    ensures forall i :: 0 <= i < |r| ==> r[i] == last[n + i]
  {
    if n < |last| then last[n..] else []
  }

  /** The new offset is the streaming limit minus the audio the previous session had
      acknowledged (finalEnd - offset), up to half a chunk plus half a millisecond:
      it is, in effect, how far into the new session's clock the replayed audio reaches. */
  lemma OffsetTracksAcknowledged(finalEnd: int, offset: int, k: int)
    requires k > 0
    ensures var b := NewBridgingOffset(k, ChunksFromMs(finalEnd, offset, k));
      2 * k * (b - (STREAMING_LIMIT - (finalEnd - offset))) <= k + STREAMING_LIMIT &&
      2 * k * ((STREAMING_LIMIT - (finalEnd - offset)) - b) <= k + STREAMING_LIMIT
  {
    var n := ChunksFromMs(finalEnd, offset, k);
    var b := NewBridgingOffset(k, n);
    var d := finalEnd - offset;
    assert (k - n) * STREAMING_LIMIT == k * STREAMING_LIMIT - n * STREAMING_LIMIT;
    assert k * (b - (STREAMING_LIMIT - d)) == k * b - k * STREAMING_LIMIT + d * k;
    assert 2 * k * (b - (STREAMING_LIMIT - d)) == 2 * (k * (b - (STREAMING_LIMIT - d)));
    assert 2 * k * ((STREAMING_LIMIT - d) - b) == -(2 * (k * (b - (STREAMING_LIMIT - d))));
  }

  /** A previous session of 50 chunks whose last final result ended at 4800 ms, with no
      earlier offset: chunk_time is 240000 / 50 = 4800 ms, so one chunk is skipped,
      49 are replayed and the new offset is 49 * 4800 = 235200 ms. */
  lemma FiftyChunkSession(last: seq<Item>)
    requires |last| == 50
    ensures ChunksFromMs(4800, Clamp(0, 4800), 50) == 1
    ensures Replay(last, 1) == last[1..] && |Replay(last, 1)| == 49
    ensures NewBridgingOffset(50, 1) == 235200
  {
    RoundHalfEvenExact(1, STREAMING_LIMIT);
    RoundHalfEvenExact(235200, 50);
  }

  /** A previous session that spanned the full limit in 100 ms chunks (2400 of them):
      chunk_time is then 100 ms, 4800 ms of acknowledged audio skip 48 chunks, and
      2352 chunks (235200 ms) are replayed. */
  lemma FullLengthSession(last: seq<Item>)
    requires |last| == 2400
    ensures ChunksFromMs(4800, Clamp(0, 4800), 2400) == 48
    ensures |Replay(last, 48)| == 2352
    ensures NewBridgingOffset(2400, 48) == 235200
  {
    RoundHalfEvenExact(48, STREAMING_LIMIT);
    RoundHalfEvenExact(235200, 2400);
  }
}
