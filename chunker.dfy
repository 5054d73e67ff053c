/**
 * How `sendBytes` cuts a payload into transport frames: greedy, left to
 * right, 20 octets at a time, with one final frame of 1 to 20 octets.
 */
module Chunker {
  import opened Java

  /** The largest value one characteristic write carries. */
  const FrameSize: nat := 20

  /**
   * The frames `sendBytes` writes for a payload. Its loop runs while more
   * than 20 octets remain; whatever is left, if anything, goes in one write.
   */
  function Chunks(payload: seq<octet>): (r: seq<seq<octet>>)
    ensures forall i :: 0 <= i < |r| ==> 0 < |r[i]| <= FrameSize
    ensures r == [] <==> payload == []
    decreases |payload|
  {
    if |payload| == 0 then []
    else if |payload| <= FrameSize then [payload]
    else [payload[..FrameSize]] + Chunks(payload[FrameSize..])
  }

  /** The loop of `sendBytes` from offset `k`: one full frame, then the rest. */
  lemma ChunksFrom(bytes: seq<octet>, k: nat)
    requires k + FrameSize < |bytes|
    ensures Chunks(bytes[k..]) == [bytes[k..k + FrameSize]] + Chunks(bytes[k + FrameSize..])
  {
    var rest := bytes[k..];
    assert rest[..FrameSize] == bytes[k..k + FrameSize];
    assert rest[FrameSize..] == bytes[k + FrameSize..];
  }

  /** And its tail: at most one frame remains once the loop stops. */
  lemma ChunksLast(bytes: seq<octet>, k: nat)
    requires k <= |bytes| <= k + FrameSize
    ensures Chunks(bytes[k..]) == if k < |bytes| then [bytes[k..]] else []
  {
  }

  /** Concatenation regrouped: used by `WireAppend` here and for the session's logs. */
  lemma AppendAssoc<T>(a: seq<T>, b: seq<T>, c: seq<T>)
    ensures (a + b) + c == a + (b + c)
  {
  }

  /** The frames joined back together: the octets written, in order. */
  function Flatten(frames: seq<seq<octet>>): seq<octet> {
    if frames == [] then [] else frames[0] + Flatten(frames[1..])
  }

  lemma {:induction false} FlattenAppend(a: seq<seq<octet>>, b: seq<seq<octet>>)
    ensures Flatten(a + b) == Flatten(a) + Flatten(b)
  {
    if a != [] {
      assert (a + b)[1..] == a[1..] + b;
      FlattenAppend(a[1..], b);
    } else {
      assert a + b == b;
    }
  }

  /** Nothing is lost or reordered: the frames concatenate to the payload. */
  lemma {:induction false} FlattenChunks(payload: seq<octet>)
    ensures Flatten(Chunks(payload)) == payload
    decreases |payload|
  {
    if |payload| > FrameSize {
      FlattenChunks(payload[FrameSize..]);
      assert payload[..FrameSize] + payload[FrameSize..] == payload;
    }
  }

  /**
   * Every frame but the last is exactly 20 octets, the last 1 to 20, there are
   * ceiling(n / 20) of them, and an empty payload gives none.
   */
  lemma {:induction false} ChunkSizes(payload: seq<octet>)
    ensures |Chunks(payload)| == (|payload| + FrameSize - 1) / FrameSize
    ensures forall i :: 0 <= i < |Chunks(payload)| - 1 ==> |Chunks(payload)[i]| == FrameSize
    ensures |Chunks(payload)| > 0 ==> 1 <= |Chunks(payload)[|Chunks(payload)| - 1]| <= FrameSize
    ensures Chunks(payload) == [] <==> payload == []
    decreases |payload|
  {
    if |payload| > FrameSize {
      var rest := payload[FrameSize..];
      ChunkSizes(rest);
      assert Chunks(payload) == [payload[..FrameSize]] + Chunks(rest);
      forall i | 0 <= i < |Chunks(payload)| - 1
        ensures |Chunks(payload)[i]| == FrameSize
      {
        if i > 0 {
          assert Chunks(payload)[i] == Chunks(rest)[i - 1];
        }
      }
    }
  }

  /** The frames `sendString` writes for each of a run of messages, in order. */
  function Wire(messages: seq<string>): (r: seq<seq<octet>>)
    ensures forall i :: 0 <= i < |r| ==> 0 < |r[i]| <= FrameSize
  {
    if messages == [] then []
    else Wire(messages[..|messages| - 1]) + Chunks(GetBytes(messages[|messages| - 1]))
  }

  lemma WireOne(m: string)
    ensures Wire([m]) == Chunks(GetBytes(m))
  {
    assert [m][..0] == [];
  }

  lemma {:induction false} WireAppend(a: seq<string>, b: seq<string>)
    ensures Wire(a + b) == Wire(a) + Wire(b)
    decreases |b|
  {
    if b == [] {
      assert a + b == a;
    } else {
      var init, last := b[..|b| - 1], b[|b| - 1];
      assert (a + b)[..|a + b| - 1] == a + init;
      assert (a + b)[|a + b| - 1] == last;
      WireAppend(a, init);
      AppendAssoc(Wire(a), Wire(init), Chunks(GetBytes(last)));
    }
  }

  /** The octets written for a run of messages: each message's in turn. */
  lemma {:induction false} FlattenWire(a: seq<string>, m: string)
    ensures Flatten(Wire(a + [m])) == Flatten(Wire(a)) + GetBytes(m)
  {
    assert (a + [m])[..|a|] == a;
    FlattenAppend(Wire(a), Chunks(GetBytes(m)));
    FlattenChunks(GetBytes(m));
  }
}
