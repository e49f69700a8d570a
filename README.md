# Session continuity of a streaming speech-recognition relay

`audio_stream_to_asr.py` relays raw audio received over a TCP socket to a streaming
speech-recognition backend. Each recognition session is limited to `STREAMING_LIMIT`
(240000 ms). When a session ends, the program opens a new one. The first request of the
new session replays the tail of the previous session's audio: the part the backend had
not yet acknowledged with a final result. A bridging offset and a restart counter then
put every result on one clock that spans the whole connection.

This project models that bookkeeping and proves properties of it:

- **`NetworkAudioStream`** (`network_audio_stream.dfy`, module `AudioStream`): a class
  with the object's fields. Its methods cover `__init__`, `__enter__`, `__exit__`,
  `fill_buffer`, one pull on `generator`, one response of `listen_print_loop` and the
  restart bookkeeping of `socket_stream`. Each method is proved to make exactly the state
  change that a pure specification function describes.
- **Specification functions:**
  - `Session`: the fields as a value, plus entering, closing and filling the stream.
  - `Bridging`: the clamp, `chunks_from_ms`, the new offset and the replayed tail.
  - `Chunks`: the queue, with `None` as the close sentinel; the non-blocking drain;
    `b''.join`.
  - `Generator`: one pull, made of the replay block followed by a blocking get and a drain.
  - `Responses`: one response (`Step`, as written), the same step with the final-result
    line corrected (`IntendedStep`), and the loop over one session's responses.
  - `Keywords`: the `\b(exit|quit)\b` case-insensitive search.
  - `Restart`: the bookkeeping after a session ends.
  - `Rounding`: Python's `round`, which rounds halves to even.
- **`Connection`**: every sequence of whole operations from `__init__`, and invariants
  of all the states it reaches. In particular, because of the crash at line 174, every
  replay in the code as written resends the whole previous session.

Points where the code departs from what its constants and names suggest:

- `CHUNK_SIZE` is commented "# 100ms" (line 18), but line 76 does not use a 100 ms chunk.
  It computes `chunk_time = STREAMING_LIMIT / len(self.last_audio_input)` from the
  previous session's real chunk count, which gives 100 ms only for 2400 chunks. Take a
  session of 50 chunks whose final result ended at 4800 ms. The code skips 1 chunk and
  sets the offset to 235200 (`Bridging.FiftyChunkSession`). At 100 ms per chunk it would
  skip 48 chunks, as it does for 2400 chunks (`Bridging.FullLengthSession`).
- The new bridging offset is negative exactly when `2 * (n - K) * 240000 > K`
  (`Bridging.NewBridgingOffset`), where `n` is `chunks_from_ms` and `K` is the number of
  chunks in the previous session. This coincides with "n > K" only while K < 480000.
  After the clamp, `n` is never negative.
- `new_stream` is cleared only when the replay block runs, that is when the previous
  session recorded some audio.
- A final result never reaches lines 176-184 (see Findings).

## Model

| member | source | states |
|---|---|---|
| Rounding.RoundHalfEven | audio_stream_to_asr.py:86-91 | Python `round` of num/den: the result is within half of the quotient, and a tie goes to the even integer |
| Rounding.RoundHalfEvenUnique | audio_stream_to_asr.py:86-91 | any integer that is within half of num/den and even on a tie is the rounded value |
| Rounding.RoundingOrder | audio_stream_to_asr.py:86-91 | of two numerators, the smaller never rounds to the larger integer, for any rounding to nearest with ties to even |
| Rounding.RoundingSign | audio_stream_to_asr.py:86-91 | any rounding to nearest with ties to even is negative exactly when the quotient is below -1/2 |
| Rounding.RoundHalfEvenSign | audio_stream_to_asr.py:86-91 | rounding a non-negative quotient is non-negative; the result is negative exactly when num/den < -1/2 |
| Rounding.RoundHalfEvenMonotone | audio_stream_to_asr.py:86-91 | rounding preserves order |
| Rounding.RoundHalfEvenExact | audio_stream_to_asr.py:86-91 | an exact quotient rounds to itself |
| Bridging.Clamp | audio_stream_to_asr.py:80-84 | the clamped offset never exceeds final_request_end_time; it is unchanged when already in range; a negative offset becomes 0 when the end time is non-negative; an offset past the end time becomes the end time; the result is non-negative when the end time is, and equals the end time when that is negative |
| Bridging.ChunksFromMs | audio_stream_to_asr.py:76-87 | chunks_from_ms is Python's round of (end − offset)·K/240000: the nearest integer, a tie going to the even one; it is non-negative whenever offset ≤ end |
| Bridging.NewBridgingOffset | audio_stream_to_asr.py:89-91 | the new offset is Python's round of (K − n)·240000/K: the nearest integer, a tie going to the even one; it is negative exactly when 2(n − K)·240000 > K; it is at most 240000 for n ≥ 0 |
| Bridging.Replay | audio_stream_to_asr.py:93-94 | the replay is last_audio_input[n:], item by item, and empty when n ≥ K |
| Bridging.OffsetTracksAcknowledged | audio_stream_to_asr.py:86-91 | the new offset is within (K + 240000)/(2K) ms of the unacknowledged span 240000 − (end − offset) |
| Bridging.FiftyChunkSession | audio_stream_to_asr.py:76-94 | a 50-chunk session with its final result at 4800 ms: 1 chunk skipped, 49 replayed, new offset 235200 |
| Bridging.FullLengthSession | audio_stream_to_asr.py:76-94 | a 2400-chunk session with its final result at 4800 ms: 48 chunks skipped, 2352 replayed, new offset 235200 |
| Chunks.Present | audio_stream_to_asr.py:121 | the chunks of a list exist exactly when the list holds no sentinel, and then they are its elements in order |
| Chunks.PresentAppend | audio_stream_to_asr.py:121 | the joinable parts of two sentinel-free lists concatenate |
| Chunks.Concat | audio_stream_to_asr.py:121 | no contract of its own: the byte string b''.join(parts); Chunks.ConcatAppend states how it joins |
| Chunks.ConcatAppend | audio_stream_to_asr.py:121 | b''.join distributes over concatenation |
| Chunks.Drain | audio_stream_to_asr.py:108-118 | no contract of its own: the non-blocking get loop, stopping at an empty queue or a sentinel; Chunks.DrainShape states what it takes and leaves |
| Chunks.DrainShape | audio_stream_to_asr.py:108-118 | the drain takes no sentinel; without a sentinel it takes the whole queue; otherwise the queue is the taken chunks, the sentinel, and what stays queued |
| Chunks.DrainWithoutSentinel | audio_stream_to_asr.py:108-118 | a queue with no sentinel is drained completely |
| Chunks.DrainStopsAtFirstSentinel | audio_stream_to_asr.py:110-113 | the drain stops at the first sentinel, and the items behind it stay queued |
| Keywords.SearchFrom | audio_stream_to_asr.py:181 | true exactly when "exit" or "quit" occurs as a whole word, ignoring case, at or after the position |
| Keywords.IsExitCommand | audio_stream_to_asr.py:181 | true exactly when the transcript contains "exit" or "quit" as a whole word, ignoring case |
| Keywords.ExitCommandFound | audio_stream_to_asr.py:181 | "Please EXIT now" and "quit." match |
| Keywords.ExitCommandNotFound | audio_stream_to_asr.py:181 | "exiting" and "quite" do not match |
| Session.Enter | audio_stream_to_asr.py:48-51 | __enter__ opens the stream and changes no other field |
| Session.Exit | audio_stream_to_asr.py:53-58 | __exit__ closes the stream and appends exactly one item, a sentinel, behind every queued chunk, so a drain of the queue always meets a sentinel; no other field changes |
| Session.Fill | audio_stream_to_asr.py:60-64 | fill_buffer puts the chunk at the back of the queue behind every queued item, never adds a sentinel, and changes no other field |
| Session.Initial | audio_stream_to_asr.py:31-46 | a new stream is closed, holds no audio, has every time at 0 and a new stream pending, and starts its clock at the reading given |
| Session.ExitTwice | audio_stream_to_asr.py:53-58 | closing twice keeps the stream closed, queues one sentinel per close, and changes nothing else |
| Generator.BridgeReplay | audio_stream_to_asr.py:74-96 | only the offset and new_stream change; new_stream stays set exactly when it was set and the previous session recorded no audio; a replay happens only on the first pull after a non-empty session, and it is a tail of that session in order |
| Generator.GetAndDrain | audio_stream_to_asr.py:101-118 | the blocking get and the drain change only the queue and this session's audio |
| Generator.Pull | audio_stream_to_asr.py:70-121 | a closed stream ends the generator and changes nothing; a pull never touches the clock, the restart counter, closed or the response fields |
| Generator.PullWithoutSentinelState | audio_stream_to_asr.py:101-118 | a pull on an open queue without a sentinel empties the queue and appends exactly its chunks, in order, to this session's audio |
| Generator.PullWithoutSentinelOutcome | audio_stream_to_asr.py:93-121 | that pull yields the replay followed by every queued chunk, or raises when the replay holds a sentinel |
| Generator.DrainTail | audio_stream_to_asr.py:101-118 | behind the head of a sentinel-free queue, the drain takes the rest |
| Generator.BatchShape | audio_stream_to_asr.py:93-121 | every yielded batch begins with the replayed chunks and holds at least one live chunk, so the replayed audio comes first in its bytes |
| Generator.PullSentinelFirst | audio_stream_to_asr.py:101-105 | a sentinel at the head ends the generator: it is recorded in this session's audio, and the staged replay is discarded |
| Generator.PullSentinelInDrain | audio_stream_to_asr.py:108-113 | a sentinel met during the drain ends the generator: the chunks before it are recorded, the sentinel is not, and what follows it stays queued |
| Responses.ResultEndTime | audio_stream_to_asr.py:156-165 | result_end_time is the end time truncated to whole milliseconds |
| Responses.CorrectedTime | audio_stream_to_asr.py:167-168 | with a bridging offset between 0 and 240000, the corrected time lies between the result end time plus 240000·(restarts − 1) and the result end time plus 240000·restarts: in the current session's window on the connection clock, or in the previous one's for replayed audio |
| Responses.Step | audio_stream_to_asr.py:137-191 | (as written) the loop stops exactly at a backend error, at the limit or at a final result; closed is set exactly by an error or a final result; a backend error changes nothing but closed and prints nothing; the limit resets only the clock, from the second clock reading; an empty response changes nothing; an interim result records its end time and clears the final flag; is_final_end_time and the queue, audio and bridging fields never change |
| Responses.IntendedStep | audio_stream_to_asr.py:172-184 | (corrected line 174) a backend error changes nothing but closed; a final result records its end time as is_final_end_time, marks the transcript final, prints it at the corrected time, and closes the stream and ends the loop exactly when it says exit or quit |
| Responses.StepsAgreeOffFinal | audio_stream_to_asr.py:142-191 | off the final branch, the code as written and the corrected step agree |
| Responses.FinalResultCrashes | audio_stream_to_asr.py:172-191 | as written, a final result only records result_end_time and closes the stream, with no print; when corrected, it keeps the stream open unless it says exit or quit |
| Responses.FinalHelloExample | audio_stream_to_asr.py:172-191 | "hello" ending at 1.5 s: as written the stream closes and is_final_end_time stays 0; when corrected it stays open with is_final_end_time 1500 |
| Responses.Loop | audio_stream_to_asr.py:137-191 | no contract of its own: steps through a session's responses until a step ends the loop; Responses.LoopFrame and Responses.LoopCloses state what it changes |
| Responses.LoopFrame | audio_stream_to_asr.py:137-191 | over a session, the loop changes only the clock, result_end_time, last_transcript_was_final and closed |
| Responses.LoopCloses | audio_stream_to_asr.py:137-191 | the loop never reopens the stream, and it closes an open stream only at some event i that is a backend error or a final result with a transcript inside the limit, judged at the state the loop had reached before event i |
| Restart.BeginSession | audio_stream_to_asr.py:221 | a session starts with no audio of its own, keeps the previous session's audio for the replay, and changes no other field |
| Restart.Rotate | audio_stream_to_asr.py:232-242 | the final end time is carried only if the session produced a result; result_end_time returns to 0; the session's audio becomes the previous session's; the counter goes up by one; new_stream is set; 'final-' is written exactly when the last transcript was not final; nothing else changes |
| Restart.ReplayAfterRestart | audio_stream_to_asr.py:232-242 | the first pull after a restart replays exactly the computed tail of the session that ended, or nothing if that session recorded no audio |
| Restart.TimelineContinuity | audio_stream_to_asr.py:167-168 | with the offset and restart count left by a replay (lines 89-91 and 238), a result t ms into the new session gets a corrected time within half a ms of 240000·(r − 1) + n·240000/K + t, the instant of that audio in the previous session |
| Connection.Apply | audio_stream_to_asr.py:48-242 | no contract of its own: one operation of the connection (open, close, a received chunk, a request pull, a response, a session start or end) applied to the state; Connection.ApplyCountsRestarts, Connection.ApplyAsWrittenLeavesFinalEnds and Connection.ApplyKeepsTimesNonNegative state what one operation moves |
| Connection.Run | audio_stream_to_asr.py:220-242 | no contract of its own: operations applied in order; Connection.RestartCounterCountsRestarts, Connection.AsWrittenNeverRecordsFinalEnds and Connection.TimesStayNonNegative state what holds over any run |
| Connection.RestartCounterCountsRestarts | audio_stream_to_asr.py:238 | restart_counter equals the number of restarts |
| Connection.AsWrittenNeverRecordsFinalEnds | audio_stream_to_asr.py:172-176 | as written, is_final_end_time and final_request_end_time stay 0 whatever happens |
| Connection.AsWrittenReplaysWholeSession | audio_stream_to_asr.py:74-96 | as written, every replay from a reachable state resends the whole previous session and sets the offset to 240000 |
| Connection.TimesStayNonNegative | audio_stream_to_asr.py:165 | with either step, result_end_time, is_final_end_time and final_request_end_time stay non-negative |
| Connection.ReachableClampInRange | audio_stream_to_asr.py:80-87 | in every reachable state the clamped offset lies in [0, final_request_end_time] and chunks_from_ms is non-negative |
| AudioStream.NetworkAudioStream.constructor | audio_stream_to_asr.py:31-46 | the fields are those of Session.Initial |
| AudioStream.NetworkAudioStream.Enter | audio_stream_to_asr.py:48-51 | the stream is open and nothing else changes |
| AudioStream.NetworkAudioStream.Exit | audio_stream_to_asr.py:53-58 | the stream is closed and one sentinel is queued |
| AudioStream.NetworkAudioStream.FillBuffer | audio_stream_to_asr.py:60-64 | the chunk joins the back of the queue |
| AudioStream.NetworkAudioStream.Bridge | audio_stream_to_asr.py:74-96 | returns exactly the replay, and the fields change as BridgeReplay says |
| AudioStream.NetworkAudioStream.CopyTail | audio_stream_to_asr.py:93-94 | the loop appends exactly the chunks after the first n, in order: the replay |
| AudioStream.NetworkAudioStream.DrainQueue | audio_stream_to_asr.py:108-118 | the loop pops exactly what Drain takes, leaves what it leaves, and records the taken chunks as audio |
| AudioStream.NetworkAudioStream.GetAndDrainQueue | audio_stream_to_asr.py:101-118 | the chunks kept, the end flag and the new state are those of GetAndDrain |
| AudioStream.NetworkAudioStream.Generate | audio_stream_to_asr.py:67-121 | outcome and new state are those of Pull |
| AudioStream.NetworkAudioStream.RespondTo | audio_stream_to_asr.py:137-191 | new state, continuation and printed line are those of Step |
| AudioStream.NetworkAudioStream.ListenPrintLoop | audio_stream_to_asr.py:137-191 | the new state is that of the loop over the session's events |
| AudioStream.NetworkAudioStream.BeginSession | audio_stream_to_asr.py:221 | this session's audio is cleared |
| AudioStream.NetworkAudioStream.EndSession | audio_stream_to_asr.py:232-242 | new state and the 'final-' marker are those of Rotate |

## Left out

- The socket (`c.recv`, `c.close`, the headers read, `read_network_stream`'s loop) is not modelled. Received data enters only through `FillBuffer` / `Receive`, and empty reads are implicitly skipped.
- Threads are not modelled. `Connection` applies whole operations one after another, each atomically, so it does not cover every interleaving of the threads. A pull does not see chunks that arrive during its drain.
- The blocking `get()` of line 101 is a precondition: an open stream has an item queued. `Connection` treats a pull on an empty open queue as a no-op, so it does not cover a pull split between its replay block (lines 74-96) and its `get()`. It also does not cover a stale generator: after the limit `break` of line 144, the previous session's generator can still be blocked in `get()`. It then takes the next chunk after the restart and appends it (line 102) to the new session's `audio_input` before the new generator's first pull, and that chunk never reaches the new session's requests. No reachable `Connection` state has `new_stream` set, a non-empty `last_audio_input` and a non-empty `audio_input`; the source can reach one.
- The speech client (`streaming_recognize`, the configuration, credentials) is not modelled. A response is an abstract record, and any exception raised by the response iterator, including the `TypeError` of a replay holding a sentinel, becomes `BackendError`. The order in which the backend consumes requests and produces responses is not related to the pulls.
- The `socket_stream` orchestration loop itself (line 220) is not a method. Its body is `BeginSession`, `ListenPrintLoop` and `EndSession`, and `Connection` covers any sequence of them.
- The clock: `get_current_time` readings are parameters (`now`, `resetNow`, and the constructor's `now`).
- Printing: console output is left out, except the printed transcript lines (`Printed`) and the `'final-'` marker (`forcedFinal`). The interim print shows the whole result object; the model keeps only its transcript.
- Bridging.ChunksFromMs: floating point is not modelled. `chunk_time` and the two `round` calls are exact rational arithmetic with ties to even. Float rounding error could move a result that is exactly at a half.
- AudioStream.NetworkAudioStream.Bridge: the `chunk_time != 0` test always passes in exact arithmetic, so its else-branch is never taken.
- Responses.ResultEndTime: the `timedelta` carries seconds and microseconds as non-negative integers. Days are not modelled.
- Keywords.IsExitCommand: `\b` and `re.I` are modelled on ASCII word characters and ASCII case folding only.
- Generator laziness is not modelled: the generator object of one session is a sequence of pulls.
- `_rate`, `chunk_size` and `_num_channels` are stored by the constructor and never read; `main` and the port constants are not modelled.

## Findings

| source | as written | input that shows it | evidently intended | confidence | as-written member | corrected member |
|---|---|---|---|---|---|---|
| audio_stream_to_asr.py:174 | `'Final-'- + str(corrected_time) + ...` applies unary `+` to a str. It raises TypeError on every final result, and the bare `except` closes the stream, so lines 176-184 never run: is_final_end_time stays 0 and every replay resends the whole previous session | a final result "hello" ending at 1.5 s, inside the limit, on an open stream (`Responses.FinalHelloExample`) | `'Final-' + str(corrected_time) + ': ' + transcript + '\n'`: print, record is_final_end_time, mark the transcript final, and close only on exit or quit | not executed | Responses.Step | Responses.IntendedStep |
