/** The stream frames on the wire, and the three programs that write and read them:
    server/src/protocol.ts, its twin of the Node client, and client/uptunnel/protocol.py. */
module Codec {
  import opened Frames
  import opened Options

  const HELLO: byte := 0x01
  const HELLO_OK: byte := 0x02
  const ERROR: byte := 0x03
  const OPEN_TUNNEL: byte := 0x10
  const TUNNEL_OK: byte := 0x11
  const CLOSE_TUNNEL: byte := 0x12
  const STREAM_OPEN: byte := 0x20
  const STREAM_DATA: byte := 0x21
  const STREAM_EOF: byte := 0x22
  const STREAM_ACK: byte := 0x23
  const STREAM_RESET: byte := 0x24
  const STREAM_FRAME_FLOOR: byte := 0x20

  const TWO_8: int := 0x100
  const TWO_32: int := 0x1_0000_0000

  predicate IsU32(n: int) {
    0 <= n < TWO_32
  }

  // ---- Python: concatenation ---------------------------------------------------------

  /** `struct.pack(">I", n)`. */
  function PackU32(n: int): (r: Bytes)
    requires IsU32(n)
    ensures |r| == 4
  {
    [(n / 0x100_0000) as byte, (n / 0x1_0000 % TWO_8) as byte, (n / TWO_8 % TWO_8) as byte, (n % TWO_8) as byte]
  }

  function StreamOnly(kind: byte, id: int): Bytes
    requires IsU32(id)
  {
    [kind] + PackU32(id)
  }

  function StreamData(id: int, payload: Bytes): Bytes
    requires IsU32(id)
  {
    [STREAM_DATA] + PackU32(id) + payload
  }

  function StreamAck(id: int, consumed: int): Bytes
    requires IsU32(id) && IsU32(consumed)
  {
    [STREAM_ACK] + (PackU32(id) + PackU32(consumed))
  }

  /** `json` is the encoded body. */
  function StreamJson(kind: byte, id: int, json: Bytes): Bytes
    requires IsU32(id)
  {
    [kind] + PackU32(id) + json
  }

  /** A frame that belongs to no stream. */
  function Control(kind: byte, json: Bytes): Bytes {
    [kind] + json
  }

  // ---- Node: filling a buffer --------------------------------------------------------

  method WriteUInt32BE(out: array<byte>, value: int, at: nat)
    requires IsU32(value) && at + 4 <= out.Length
    modifies out
    ensures out[at..at + 4] == PackU32(value)
    ensures forall i :: 0 <= i < out.Length && !(at <= i < at + 4) ==> out[i] == old(out[i])
  {
    out[at] := (value / 0x100_0000) as byte;
    out[at + 1] := (value / 0x1_0000 % TWO_8) as byte;
    out[at + 2] := (value / TWO_8 % TWO_8) as byte;
    out[at + 3] := (value % TWO_8) as byte;
  }

  /** `payload.copy(out, at)`. */
  method Copy(payload: Bytes, out: array<byte>, at: nat)
    requires at + |payload| == out.Length
    modifies out
    ensures out[at..] == payload
    ensures forall i :: 0 <= i < at ==> out[i] == old(out[i])
  {
    for i := 0 to |payload|
      invariant out[at..at + i] == payload[..i]
      invariant forall j :: 0 <= j < at ==> out[j] == old(out[j])
    {
      out[at + i] := payload[i];
    }
    assert payload[..|payload|] == payload && out[at..at + |payload|] == out[at..];
  }

  /** `json` is the encoded body, as in all frames below the stream frames. */
  method EncodeControl(kind: byte, json: Bytes) returns (out: array<byte>)
    ensures fresh(out) && out[..] == Control(kind, json)
  {
    out := new byte[1 + |json|];
    out[0] := kind;
    Copy(json, out, 1);
    assert out[0] == kind && out[1..] == json && out[..] == [out[0]] + out[1..];
  }

  method EncodeStreamJson(kind: byte, id: int, json: Bytes) returns (out: array<byte>)
    requires IsU32(id)
    ensures fresh(out) && out[..] == StreamJson(kind, id, json)
  {
    out := new byte[5 + |json|];
    out[0] := kind;
    WriteUInt32BE(out, id, 1);
    Copy(json, out, 5);
    assert out[1..5] == PackU32(id) && out[..] == [out[0]] + out[1..5] + out[5..];
  }

  method EncodeStreamData(id: int, payload: Bytes) returns (out: array<byte>)
    requires IsU32(id)
    ensures fresh(out) && out[..] == StreamData(id, payload)
  {
    out := new byte[5 + |payload|];
    out[0] := STREAM_DATA;
    WriteUInt32BE(out, id, 1);
    Copy(payload, out, 5);
    assert out[1..5] == PackU32(id) && out[..] == [out[0]] + out[1..5] + out[5..];
  }

  method EncodeStreamOnly(kind: byte, id: int) returns (out: array<byte>)
    requires IsU32(id)
    ensures fresh(out) && out[..] == StreamOnly(kind, id)
  {
    out := new byte[5];
    out[0] := kind;
    WriteUInt32BE(out, id, 1);
    assert out[..] == [out[0]] + out[1..5];
  }

  method EncodeStreamAck(id: int, bytes: int) returns (out: array<byte>)
    requires IsU32(id) && IsU32(bytes)
    ensures fresh(out) && out[..] == StreamAck(id, bytes)
  {
    out := new byte[9];
    out[0] := STREAM_ACK;
    WriteUInt32BE(out, id, 1);
    WriteUInt32BE(out, bytes, 5);
    assert out[1..5] == PackU32(id) && out[..] == [out[0]] + (out[1..5] + out[5..9]);
  }

  // ---- reading -----------------------------------------------------------------------

  /** A control frame keeps its undecoded JSON body here. */
  datatype Decoded = ControlFrame(kind: byte, body: Bytes) | Stream(kind: byte, id: nat, payload: Bytes) | Malformed

  function ReadUInt32BE(b: Bytes, at: nat): (r: nat)
    requires at + 4 <= |b|
    ensures r < TWO_32
  {
    ((b[at] as nat * TWO_8 + b[at + 1] as nat) * TWO_8 + b[at + 2] as nat) * TWO_8 + b[at + 3] as nat
  }

  function DecodeFrame(buf: Bytes): Decoded {
    if |buf| < 1 then Malformed
    else if buf[0] < STREAM_FRAME_FLOOR then ControlFrame(buf[0], buf[1..])
    else if |buf| < 5 then Malformed
    else Stream(buf[0], ReadUInt32BE(buf, 1), buf[5..])
  }

  /** What a session makes of a stream frame: an ACK without its count, like a type it does
      not know, is ignored. */
  function Meaning(d: Decoded): Option<Frame> {
    match d
    case Stream(kind, id, payload) =>
      if kind == STREAM_OPEN then Some(Frame(id, Open))
      else if kind == STREAM_DATA then Some(Frame(id, Data(payload)))
      else if kind == STREAM_EOF then Some(Frame(id, Eof))
      else if kind == STREAM_ACK && |payload| >= 4 then Some(Frame(id, Ack(ReadUInt32BE(payload, 0))))
      else if kind == STREAM_RESET then Some(Frame(id, Reset))
      else None
    case _ => None
  }

  // ---- round trips -------------------------------------------------------------------

  predicate Encodable(f: Frame) {
    IsU32(f.id) && (f.msg.Ack? ==> IsU32(f.msg.bytes))
  }

  /** The bytes of a frame; `meta` is the JSON that OPEN and RESET carry along. */
  function Encode(f: Frame, meta: Bytes): Bytes
    requires Encodable(f)
  {
    match f.msg
    case Open => StreamJson(STREAM_OPEN, f.id, meta)
    case Data(payload) => StreamData(f.id, payload)
    case Eof => StreamOnly(STREAM_EOF, f.id)
    case Ack(n) => StreamAck(f.id, n)
    case Reset => StreamJson(STREAM_RESET, f.id, meta)
  }

  /** Horner's scheme inverts the division into bytes. */
  lemma UnpackPack(n: int)
    requires IsU32(n)
    ensures ReadUInt32BE(PackU32(n), 0) == n
  {
    var a := n / TWO_8;
    var b := a / TWO_8;
    assert a == b * TWO_8 + a % TWO_8 && n == a * TWO_8 + n % TWO_8;
    assert n / 0x1_0000 == b && b == b / TWO_8 * TWO_8 + b % TWO_8 && n / 0x100_0000 == b / TWO_8;
  }

  lemma ReadAt(b: Bytes, at: nat, n: int)
    requires IsU32(n) && at + 4 <= |b| && b[at..at + 4] == PackU32(n)
    ensures ReadUInt32BE(b, at) == n
  {
    UnpackPack(n);
    assert b[at] == PackU32(n)[0] && b[at + 1] == PackU32(n)[1];
    assert b[at + 2] == PackU32(n)[2] && b[at + 3] == PackU32(n)[3];
  }

  lemma DecodeHeader(kind: byte, id: int, payload: Bytes)
    requires IsU32(id) && kind >= STREAM_FRAME_FLOOR
    ensures DecodeFrame([kind] + PackU32(id) + payload) == Stream(kind, id, payload)
  {
    var b := [kind] + PackU32(id) + payload;
    assert b[1..5] == PackU32(id) && b[5..] == payload;
    ReadAt(b, 1, id);
  }

  /** Whichever of the programs wrote it, every frame is read back as what was meant. */
  lemma RoundTrip(f: Frame, meta: Bytes)
    requires Encodable(f)
    ensures Meaning(DecodeFrame(Encode(f, meta))) == Some(f)
  {
    match f.msg {
      case Data(payload) => DecodeHeader(STREAM_DATA, f.id, payload);
      case Ack(n) =>
        assert StreamAck(f.id, n) == [STREAM_ACK] + PackU32(f.id) + PackU32(n);
        DecodeHeader(STREAM_ACK, f.id, PackU32(n));
        UnpackPack(n);
      case Eof =>
        assert StreamOnly(STREAM_EOF, f.id) == [STREAM_EOF] + PackU32(f.id) + [];
        DecodeHeader(STREAM_EOF, f.id, []);
      case Open => DecodeHeader(STREAM_OPEN, f.id, meta);
      case Reset => DecodeHeader(STREAM_RESET, f.id, meta);
    }
  }

  lemma PackUnpack(b: Bytes)
    requires |b| == 4
    ensures PackU32(ReadUInt32BE(b, 0)) == b
  {
    var n := ReadUInt32BE(b, 0);
    var a := (b[0] as nat * TWO_8 + b[1] as nat) * TWO_8 + b[2] as nat;
    var c := b[0] as nat * TWO_8 + b[1] as nat;
    assert n == a * TWO_8 + b[3] as nat && n / TWO_8 == a && n % TWO_8 == b[3] as nat;
    assert a == c * TWO_8 + b[2] as nat && a / TWO_8 == c && a % TWO_8 == b[2] as nat;
    assert n / 0x1_0000 == c && n / 0x100_0000 == c / TWO_8 == b[0] as nat;
  }

  /** Conversely whatever is read as a stream frame is what these encoders would write for
      it: nothing else on the wire is taken for one. */
  lemma DecodedIsEncoded(buf: Bytes)
    requires DecodeFrame(buf).Stream?
    ensures var d := DecodeFrame(buf);
            d.kind >= STREAM_FRAME_FLOOR && IsU32(d.id) && buf == [d.kind] + PackU32(d.id) + d.payload
  {
    PackUnpack(buf[1..5]);
    assert ReadUInt32BE(buf[1..5], 0) == ReadUInt32BE(buf, 1);
    assert buf == [buf[0]] + buf[1..5] + buf[5..];
  }

  /** Two frames never look the same on the wire. */
  lemma EncodeIsInjective(f: Frame, g: Frame, m: Bytes, n: Bytes)
    requires Encodable(f) && Encodable(g) && Encode(f, m) == Encode(g, n)
    ensures f == g
  {
    RoundTrip(f, m);
    RoundTrip(g, n);
  }

  // ---- the layout ----------------------------------------------------------------------

  /** The number of four bytes, the most significant first. */
  predicate BigEndian(n: nat, b: Bytes) {
    |b| == 4 && n == b[0] as int * 0x100_0000 + b[1] as int * 0x1_0000 + b[2] as int * 0x100 + b[3] as int
  }

  lemma PackIsBigEndian(n: nat)
    requires IsU32(n)
    ensures BigEndian(n, PackU32(n))
  {
    UnpackPack(n);
  }

  /** Every stream frame on the wire, field by field (docs/PROTOCOL.md): its type, the stream,
      and what the type carries. */
  lemma OnTheWire(f: Frame, meta: Bytes)
    requires Encodable(f)
    ensures var b := Encode(f, meta);
            && |b| >= 5 && BigEndian(f.id, b[1..5])
            && match f.msg
               case Open => b[0] == 0x20 && b[5..] == meta
               case Data(payload) => b[0] == 0x21 && b[5..] == payload
               case Eof => b[0] == 0x22 && b[5..] == []
               case Ack(n) => b[0] == 0x23 && BigEndian(n, b[5..])
               case Reset => b[0] == 0x24 && b[5..] == meta
  {
    PackIsBigEndian(f.id);
    var b := Encode(f, meta);
    assert b[1..5] == PackU32(f.id);
    if f.msg.Ack? {
      PackIsBigEndian(f.msg.bytes);
      assert b[5..] == PackU32(f.msg.bytes);
    }
  }

  /** A frame is a control frame exactly when its type is below 0x20: so the types of the six
      control frames are, and their bodies come through as they are. */
  lemma ControlIff(buf: Bytes)
    ensures DecodeFrame(buf).ControlFrame? <==> buf != [] && buf[0] < 0x20
    ensures DecodeFrame(buf).ControlFrame? ==> buf == Control(DecodeFrame(buf).kind, DecodeFrame(buf).body)
  {
  }

  lemma ControlRoundTrip(kind: byte, json: Bytes)
    requires kind in {HELLO, HELLO_OK, ERROR, OPEN_TUNNEL, TUNNEL_OK, CLOSE_TUNNEL}
    ensures DecodeFrame(Control(kind, json)) == ControlFrame(kind, json) && Control(kind, json)[0] == kind
    ensures kind in {0x01, 0x02, 0x03, 0x10, 0x11, 0x12}
  {
    assert Control(kind, json)[1..] == json;
  }

  /** A stream frame has a meaning exactly if its type is one of the five and, for a grant, the
      count is there. */
  lemma MeaningIff(kind: byte, id: nat, payload: Bytes)
    ensures Meaning(Stream(kind, id, payload)).Some? <==> 0x20 <= kind <= 0x24 && (kind == 0x23 ==> |payload| >= 4)
    ensures Meaning(Stream(kind, id, payload)).Some? ==> Meaning(Stream(kind, id, payload)).value.id == id
  {
  }
}
