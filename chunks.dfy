/** Audio chunks, the ingestion queue's entries and the list operations the
    generator performs on them (audio_stream_to_asr.py, NetworkAudioStream). */
module Chunks {

  newtype byte = x: int | 0 <= x < 256

  /** One piece of raw audio as received from the socket. */
  type Chunk = seq<byte>

  datatype Option<+T> = None | Some(value: T)

  /** An entry of the ingestion queue, and of a session's audio record: a chunk,
      or the close sentinel (Python's None) that __exit__ enqueues. */
  type Item = Option<Chunk>

  /** No close sentinel among the items. */
  predicate NoSentinel(items: seq<Item>)
  {
    forall i :: 0 <= i < |items| ==> items[i].Some?
  }

  /** The chunks of a list of items, or None when the list holds a sentinel:
      b''.join raises a TypeError on a None element. */
  function Present(items: seq<Item>): (r: Option<seq<Chunk>>)
    ensures r.Some? <==> NoSentinel(items)
    ensures r.Some? ==> |r.value| == |items| && forall i :: 0 <= i < |items| ==> items[i] == Some(r.value[i])
  {
    if items == [] then Some([])
    else if items[0].None? then None
    else
      match Present(items[1..])
      case None => None
      case Some(rest) => Some([items[0].value] + rest)
  }

  /** Present distributes over concatenation of sentinel-free lists. */
  lemma PresentAppend(a: seq<Item>, b: seq<Item>)
    requires NoSentinel(a) && NoSentinel(b)
    ensures NoSentinel(a + b)
    ensures Present(a + b).value == Present(a).value + Present(b).value
  {
    assert NoSentinel(a + b) by {
      forall i | 0 <= i < |a + b| ensures (a + b)[i].Some? {
        if i < |a| { assert (a + b)[i] == a[i]; } else { assert (a + b)[i] == b[i - |a|]; }
      }
    }
    var pa, pb, pab := Present(a).value, Present(b).value, Present(a + b).value;
    assert |pab| == |pa + pb|;
    forall i | 0 <= i < |pab| ensures pab[i] == (pa + pb)[i] {
      if i < |a| {
        assert (a + b)[i] == a[i];
      } else {
        assert (a + b)[i] == b[i - |a|];
      }
    }
  }

  /** A sentinel-free concatenation has sentinel-free halves. */
  lemma NoSentinelSplit(a: seq<Item>, b: seq<Item>)
    requires NoSentinel(a + b)
    ensures NoSentinel(a) && NoSentinel(b)
  {
    forall i | 0 <= i < |a| ensures a[i].Some? { assert (a + b)[i] == a[i]; }
    forall i | 0 <= i < |b| ensures b[i].Some? { assert (a + b)[|a| + i] == b[i]; }
  }

  /** The byte string b''.join(parts). */
  function Concat(parts: seq<Chunk>): seq<byte>
  {
    if parts == [] then [] else parts[0] + Concat(parts[1..])
  }

  /** Joining two lists of parts puts all bytes of the first before all bytes of the second. */
  lemma {:induction false} ConcatAppend(a: seq<Chunk>, b: seq<Chunk>)
    ensures Concat(a + b) == Concat(a) + Concat(b)
  {
    if a == [] {
      assert a + b == b;
    } else {
      assert (a + b)[1..] == a[1..] + b;
      ConcatAppend(a[1..], b);
    }
  }

  /** What the non-blocking drain (get(block=False) until queue.Empty) takes from
      the queue: the items it keeps, what it leaves behind, and whether it stopped
      at a sentinel (which it consumes). */
  datatype Drained = Drained(taken: seq<Item>, rest: seq<Item>, sawSentinel: bool)

  /** Drain pops items until the queue is empty or a sentinel comes up. */
  function Drain(q: seq<Item>): Drained
  {
    if q == [] then Drained([], [], false)
    else if q[0].None? then Drained([], q[1..], true)
    else
      var d := Drain(q[1..]);
      Drained([q[0]] + d.taken, d.rest, d.sawSentinel)
  }

  /** What the drain keeps holds no sentinel; without a sentinel it takes the whole queue
      and leaves it empty; otherwise the queue is what it took, one sentinel, and what it left. */
  lemma {:induction false} DrainShape(q: seq<Item>)
    ensures NoSentinel(Drain(q).taken)
    ensures !Drain(q).sawSentinel ==> Drain(q).taken == q && Drain(q).rest == []
    ensures Drain(q).sawSentinel ==> q == Drain(q).taken + [None] + Drain(q).rest
  {
    if q != [] && q[0].Some? {
      var d := Drain(q[1..]);
      DrainShape(q[1..]);
      assert NoSentinel([q[0]] + d.taken) by {
        forall i | 0 <= i < |d.taken| + 1 ensures ([q[0]] + d.taken)[i].Some? {
          if i > 0 { assert ([q[0]] + d.taken)[i] == d.taken[i - 1]; }
        }
      }
      if d.sawSentinel {
        assert q == [q[0]] + q[1..];
        assert [q[0]] + (d.taken + [None] + d.rest) == [q[0]] + d.taken + [None] + d.rest;
      } else {
        assert q == [q[0]] + q[1..];
      }
    }
  }

  /** A queue with no sentinel is drained completely, in order. */
  lemma DrainWithoutSentinel(q: seq<Item>)
    requires NoSentinel(q)
    ensures Drain(q) == Drained(q, [], false)
  {
    DrainShape(q);
  }

  /** A drain stops at the FIRST sentinel: it sees one exactly when the queue holds one,
      and then everything after that sentinel stays queued. */
  lemma DrainStopsAtFirstSentinel(q: seq<Item>, k: nat)
    requires k < |q| && q[k].None? && NoSentinel(q[..k])
    ensures Drain(q) == Drained(q[..k], q[k + 1..], true)
  {
    DrainShape(q);
    var d := Drain(q);
    assert d.sawSentinel;
    assert q[|d.taken|] == None;
    assert |d.taken| >= k by {
      forall j | 0 <= j < k ensures q[j].Some? { assert q[..k][j] == q[j]; }
    }
    assert q[..k] == d.taken;
  }
}
