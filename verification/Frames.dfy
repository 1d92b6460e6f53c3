/** The messages of one stream, as they travel over the shared WebSocket, and the byte
    counts that flow control is about. */
module Frames {
  newtype byte = b: int | 0 <= b < 256

  type Bytes = seq<byte>

  /** A stream frame without its stream id. `Open` and `Reset` carry JSON that only
      matters for logging and for choosing the tunnel; it is not modelled here. */
  datatype Msg = Open | Data(payload: Bytes) | Eof | Ack(bytes: nat) | Reset

  /** A stream frame on the shared socket. */
  datatype Frame = Frame(id: nat, msg: Msg)

  /** All payload bytes carried by the DATA messages of `q`, in order. */
  function DataOf(q: seq<Msg>): Bytes {
    if q == [] then [] else (if q[0].Data? then q[0].payload else []) + DataOf(q[1..])
  }

  /** Total credit granted by the ACK messages of `q`. */
  function AckSum(q: seq<Msg>): nat {
    if q == [] then 0 else (if q[0].Ack? then q[0].bytes else 0) + AckSum(q[1..])
  }

  function Flat(chunks: seq<Bytes>): Bytes {
    if chunks == [] then [] else chunks[0] + Flat(chunks[1..])
  }

  lemma {:induction false} DataOfAppend(a: seq<Msg>, b: seq<Msg>)
    ensures DataOf(a + b) == DataOf(a) + DataOf(b)
  {
    if a == [] {
      assert a + b == b;
    } else {
      assert (a + b)[1..] == a[1..] + b;
      DataOfAppend(a[1..], b);
      var h := if a[0].Data? then a[0].payload else [];
      assert h + (DataOf(a[1..]) + DataOf(b)) == (h + DataOf(a[1..])) + DataOf(b);
    }
  }

  lemma {:induction false} AckSumAppend(a: seq<Msg>, b: seq<Msg>)
    ensures AckSum(a + b) == AckSum(a) + AckSum(b)
  {
    if a == [] {
      assert a + b == b;
    } else {
      assert (a + b)[1..] == a[1..] + b;
      AckSumAppend(a[1..], b);
    }
  }

  lemma {:induction false} FlatAppend(a: seq<Bytes>, b: seq<Bytes>)
    ensures Flat(a + b) == Flat(a) + Flat(b)
  {
    if a == [] {
      assert a + b == b;
    } else {
      assert (a + b)[1..] == a[1..] + b;
      FlatAppend(a[1..], b);
      assert a[0] + (Flat(a[1..]) + Flat(b)) == (a[0] + Flat(a[1..])) + Flat(b);
    }
  }

  /** The frames of stream `id`, in order, out of a queue shared by many streams. */
  function Only(q: seq<Frame>, id: nat): seq<Msg> {
    if q == [] then [] else (if q[0].id == id then [q[0].msg] else []) + Only(q[1..], id)
  }

  lemma {:induction false} OnlyAppend(a: seq<Frame>, b: seq<Frame>, id: nat)
    ensures Only(a + b, id) == Only(a, id) + Only(b, id)
  {
    if a == [] {
      assert a + b == b;
    } else {
      assert (a + b)[1..] == a[1..] + b;
      OnlyAppend(a[1..], b, id);
      var h := if a[0].id == id then [a[0].msg] else [];
      assert Only(a + b, id) == h + Only(a[1..] + b, id);
      assert h + (Only(a[1..], id) + Only(b, id)) == (h + Only(a[1..], id)) + Only(b, id);
    }
  }

  /** Labels every message with the stream id it is sent on. */
  function Tag(id: nat, ms: seq<Msg>): seq<Frame> {
    seq(|ms|, k requires 0 <= k < |ms| => Frame(id, ms[k]))
  }

  lemma {:induction false} OnlyTag(id: nat, ms: seq<Msg>, other: nat)
    ensures Only(Tag(id, ms), other) == if other == id then ms else []
  {
    if ms != [] {
      assert Tag(id, ms)[1..] == Tag(id, ms[1..]);
      OnlyTag(id, ms[1..], other);
    }
  }
}
