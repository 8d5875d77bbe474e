/**
 Length-prefixed framing: a four-byte big-endian length, then the payload. The receiver refuses lengths above
 4 MiB. Sources and sinks hand bytes over in arbitrary chunks.
 */
module Codec {
  import opened Wrappers

  newtype byte = x: int | 0 <= x < 256

  const MAX_MSG_BYTES := 4 * 1024 * 1024

  /** `len as u32` then `to_be_bytes`. */
  function EncodeLength(len: nat): (h: seq<byte>)
    ensures |h| == 4
  {
    var n := len % TWO_TO_THE_32;
    [(n / 0x100 / 0x100 / 0x100) as byte, (n / 0x100 / 0x100 % 0x100) as byte, (n / 0x100 % 0x100) as byte,
     (n % 0x100) as byte]
  }

  function DecodeLength(h: seq<byte>): (len: nat)
    requires |h| == 4
  {
    h[0] as nat * 0x100_0000 + h[1] as nat * 0x1_0000 + h[2] as nat * 0x100 + h[3] as nat
  }

  function Frame(payload: seq<byte>): seq<byte> {
    EncodeLength(|payload|) + payload
  }

  datatype Received = Payload(bytes: seq<byte>) | TooLarge(len: nat) | UnexpectedEof

  /** What one receive makes of the bytes that are there, and how many of them it consumes. */
  function Receive(input: seq<byte>): (Received, nat) {
    if |input| < 4 then (UnexpectedEof, |input|)
    else
      var len := DecodeLength(input[..4]);
      if len > MAX_MSG_BYTES then (TooLarge(len), 4)
      else if |input| - 4 < len then (UnexpectedEof, |input|)
      else (Payload(input[4..4 + len]), 4 + len)
  }

  /** A byte stream that is read in pieces; `chunk(k)` says how much the k-th read may return. */
  class ByteSource {
    const data: seq<byte>
    const chunk: nat -> nat
    var pos: nat
    var readCount: nat

    constructor (data: seq<byte>, chunk: nat -> nat)
      ensures Valid() && Remaining() == data
    {
      this.data, this.chunk, this.pos, this.readCount := data, chunk, 0, 0;
    }

    ghost predicate Valid()
      reads this
    {
      pos <= |data|
    }

    ghost function Remaining(): seq<byte>
      requires Valid()
      reads this
    {
      data[pos..]
    }

    /** One read into `buf[off..]`: zero bytes only at the end of the stream. */
    method Read(buf: array<byte>, off: nat) returns (n: nat)
      requires Valid() && off < buf.Length
      modifies this`pos, this`readCount, buf
      ensures Valid() && off + n <= buf.Length && n <= |old(Remaining())|
      ensures n == 0 <==> old(Remaining()) == []
      ensures Remaining() == old(Remaining())[n..]
      ensures buf[..off + n] == old(buf[..off]) + old(Remaining())[..n]
    {
      var limit := Min(Min(|data| - pos, buf.Length - off), chunk(readCount));
      n := if limit == 0 && pos < |data| then 1 else limit;
      forall i | 0 <= i < n { buf[off + i] := data[pos + i]; }
      pos, readCount := pos + n, readCount + 1;
    }

    /** `read_exact`: fills the buffer, or consumes everything and fails. */
    method ReadExact(buf: array<byte>) returns (ok: bool)
      requires Valid()
      modifies this`pos, this`readCount, buf
      ensures Valid()
      ensures ok <==> buf.Length <= |old(Remaining())|
      ensures ok ==> buf[..] == old(Remaining())[..buf.Length] && Remaining() == old(Remaining())[buf.Length..]
      ensures !ok ==> Remaining() == []
    {
      ghost var start := Remaining();
      var off := 0;
      while off < buf.Length
        invariant Valid() && off <= buf.Length && off <= |start|
        invariant Remaining() == start[off..]
        invariant buf[..off] == start[..off]
      {
        var n := Read(buf, off);
        if n == 0 {
          return false;
        }
        assert start[..off] + start[off..][..n] == start[..off + n];
        off := off + n;
      }
      assert buf[..] == buf[..off];
      return true;
    }

    /** The framing half of `recv_json`. */
    method RecvFrame() returns (r: Received)
      requires Valid()
      modifies this`pos, this`readCount
      ensures Valid()
      ensures r == Receive(old(Remaining())).0
      ensures |Remaining()| + Receive(old(Remaining())).1 == |old(Remaining())|
      ensures Remaining() == old(Remaining())[Receive(old(Remaining())).1..]
    {
      ghost var start := Remaining();
      var lenBuf := new byte[4];
      var ok := ReadExact(lenBuf);
      if !ok {
        return UnexpectedEof;
      }
      var len := DecodeLength(lenBuf[..]);
      if len > MAX_MSG_BYTES {
        return TooLarge(len);
      }
      var buf := new byte[len];
      ok := ReadExact(buf);
      if !ok {
        return UnexpectedEof;
      }
      assert start[4..][..len] == start[4..4 + len];
      return Payload(buf[..]);
    }
  }

  /** A byte sink that takes what it is given in pieces, up to an optional total after which writes fail. */
  class ByteSink {
    const capacity: Option<nat>
    const chunk: nat -> nat
    var sent: seq<byte>
    var writeCount: nat

    constructor (capacity: Option<nat>, chunk: nat -> nat)
      ensures sent == [] && this.capacity == capacity
    {
      this.capacity, this.chunk, this.sent, this.writeCount := capacity, chunk, [], 0;
    }

    /** How many of `n` more bytes this sink will still take. */
    function Room(n: nat): (r: nat)
      reads this
      ensures r <= n
    {
      if capacity.None? || |sent| + n <= capacity.value then n
      else if |sent| <= capacity.value then capacity.value - |sent|
      else 0
    }

    method Write(bytes: seq<byte>) returns (n: nat)
      requires bytes != []
      modifies this`sent, this`writeCount
      ensures n <= old(Room(|bytes|)) && (n == 0 <==> old(Room(|bytes|)) == 0)
      ensures sent == old(sent) + bytes[..n]
    {
      var room := Room(|bytes|);
      var limit := Min(room, chunk(writeCount));
      n := if limit == 0 && room > 0 then 1 else limit;
      sent, writeCount := sent + bytes[..n], writeCount + 1;
    }

    /** `write_all`: everything goes out, or everything that fits does and the write fails. */
    method WriteAll(bytes: seq<byte>) returns (ok: bool)
      modifies this`sent, this`writeCount
      ensures ok <==> old(Room(|bytes|)) == |bytes|
      ensures sent == old(sent) + bytes[..old(Room(|bytes|))]
    {
      var off := 0;
      while off < |bytes|
        invariant off <= old(Room(|bytes|))
        invariant sent == old(sent) + bytes[..off]
      {
        var n := Write(bytes[off..]);
        assert bytes[..off] + bytes[off..][..n] == bytes[..off + n];
        if n == 0 {
          return false;
        }
        off := off + n;
      }
      return true;
    }

    /** The framing half of `send_json`: header, then payload. */
    method SendFrame(payload: seq<byte>) returns (ok: bool)
      modifies this`sent, this`writeCount
      ensures ok <==> old(Room(|Frame(payload)|)) == |Frame(payload)|
      ensures sent == old(sent) + Frame(payload)[..old(Room(|Frame(payload)|))]
    {
      ghost var frame := Frame(payload);
      ok := WriteAll(EncodeLength(|payload|));
      if !ok {
        return;
      }
      assert sent == old(sent) + frame[..4];
      ghost var room := Room(|payload|);
      ok := WriteAll(payload);
      assert frame[..4 + room] == frame[..4] + payload[..room];
    }
  }

  function Min(a: nat, b: nat): nat {
    if a <= b then a else b
  }

  // ---- Properties of the framing ----

  /** Cutting a number to 32 bits does not change its four lowest bytes. */
  lemma LowBytes(len: nat)
    ensures var n := len % 4294967296;
            && n % 256 == len % 256 && n / 256 % 256 == len / 256 % 256
            && n / 256 / 256 % 256 == len / 65536 % 256 && n / 256 / 256 / 256 == len / 16777216 % 256
  {
    var high, n := len / 4294967296, len % 4294967296;
    var n1, n2 := n / 256, n / 256 / 256;
    assert len == 256 * (16777216 * high + n1) + n % 256;
    assert len / 256 == 16777216 * high + n1;
    assert len / 256 == 256 * (65536 * high + n2) + n1 % 256;
    assert len / 65536 == 65536 * high + n2;
    assert len / 65536 == 256 * (256 * high + n2 / 256) + n2 % 256;
    assert len / 16777216 == 256 * high + n2 / 256;
  }

  /** The header's bytes, the most significant first, are those of the length modulo 2^32. */
  lemma HeaderBytes(payload: seq<byte>)
    ensures var len, frame := |payload|, Frame(payload);
            && |frame| == 4 + len && frame[4..] == payload
            && frame[0] as int == len / 16777216 % 256 && frame[1] as int == len / 65536 % 256
            && frame[2] as int == len / 256 % 256 && frame[3] as int == len % 256
  {
    LowBytes(|payload|);
  }

  /** The receiver reads the four bytes as a big-endian number. */
  lemma HeaderValue(a: byte, b: byte, c: byte, d: byte)
    ensures DecodeLength([a, b, c, d]) == 16777216 * a as int + 65536 * b as int + 256 * c as int + d as int
  {}

  /** Together: what is read from a header is the length modulo 2^32. */
  lemma HeaderIsLengthMod32(len: nat)
    ensures DecodeLength(EncodeLength(len)) == len % 4294967296
  {
    var n := len % TWO_TO_THE_32;
    var high := n / 0x100;
    var top := high / 0x100;
    assert n == high * 0x100 + n % 0x100;
    assert high == top * 0x100 + high % 0x100;
    assert top == top / 0x100 * 0x100 + top % 0x100;
  }

  lemma ReceiveOneFrame(payload: seq<byte>, rest: seq<byte>)
    ensures Receive(Frame(payload) + rest) ==
            var n := |payload| % TWO_TO_THE_32;
            if n > MAX_MSG_BYTES then (TooLarge(n), 4) else (Payload((payload + rest)[..n]), 4 + n)
  {
    hide EncodeLength, DecodeLength;
    HeaderIsLengthMod32(|payload|);
    var input := Frame(payload) + rest;
    assert input[..4] == EncodeLength(|payload|);
    var n := |payload| % TWO_TO_THE_32;
    assert n <= |payload|;
    assert input[4..4 + n] == (payload + rest)[..n];
  }

  /** What is received from as much of a frame as has arrived: nothing before all its header announces is there. */
  lemma ReceivePrefix(payload: seq<byte>, n: nat)
    requires n <= |Frame(payload)|
    ensures var len := |payload| % TWO_TO_THE_32;
            if len <= MAX_MSG_BYTES && 4 + len <= n then Receive(Frame(payload)[..n]).0 == Payload(payload[..len])
            else !Receive(Frame(payload)[..n]).0.Payload?
  {
    hide EncodeLength, DecodeLength;
    if n >= 4 {
      HeaderIsLengthMod32(|payload|);
      var arrived := Frame(payload)[..n];
      assert arrived[..4] == EncodeLength(|payload|);
      var len := |payload| % TWO_TO_THE_32;
      if 4 + len <= n {
        assert arrived[4..4 + len] == payload[..len];
      }
    }
  }

  /** A sent payload is received back exactly when it is at most 4 MiB, the limit included. */
  lemma RoundTripIff(payload: seq<byte>)
    ensures Receive(Frame(payload)).0 == Payload(payload) <==> |payload| <= 4194304
    ensures |payload| <= 4194304 ==> Receive(Frame(payload)).1 == 4 + |payload|
    ensures 4194304 < |payload| < 4294967296 ==> Receive(Frame(payload)) == (TooLarge(|payload|), 4)
  {
    assert Frame(payload) + [] == Frame(payload);
    ReceiveOneFrame(payload, []);
    assert (payload + []) == payload;
  }

  function Concat(payloads: seq<seq<byte>>): seq<byte> {
    if payloads == [] then [] else Frame(payloads[0]) + Concat(payloads[1..])
  }

  /** `count` receives in a row: the payloads, or None if one fails; and the bytes consumed. */
  function ReceiveMany(count: nat, input: seq<byte>): (Option<seq<seq<byte>>>, nat) {
    if count == 0 then (Some([]), 0)
    else
      var (first, used) := Receive(input);
      if !first.Payload? then (None, used)
      else
        var (rest, more) := ReceiveMany(count - 1, input[used..]);
        (if rest.Some? then Some([first.bytes] + rest.value) else None, used + more)
  }

  predicate Sendable(payloads: seq<seq<byte>>) {
    forall i :: 0 <= i < |payloads| ==> |payloads[i]| <= MAX_MSG_BYTES
  }

  /** Receiving from a concatenation of frames returns those payloads and consumes exactly their bytes. */
  lemma {:induction false} FramesDecode(payloads: seq<seq<byte>>, tail: seq<byte>)
    requires forall i :: 0 <= i < |payloads| ==> |payloads[i]| <= 4194304
    ensures ReceiveMany(|payloads|, Concat(payloads) + tail) == (Some(payloads), |Concat(payloads)|)
  {
    hide EncodeLength, DecodeLength, Receive;
    if payloads != [] {
      var rest := Concat(payloads[1..]) + tail;
      assert Concat(payloads) + tail == Frame(payloads[0]) + rest;
      ReceiveOneFrame(payloads[0], rest);
      assert (payloads[0] + rest)[..|payloads[0]|] == payloads[0];
      assert (Concat(payloads) + tail)[4 + |payloads[0]|..] == rest;
      FramesDecode(payloads[1..], tail);
      assert payloads == [payloads[0]] + payloads[1..];
    }
  }

  lemma ReceiveConcat(payloads: seq<seq<byte>>)
    requires Sendable(payloads) && payloads != []
    ensures Receive(Concat(payloads)) == (Payload(payloads[0]), 4 + |payloads[0]|)
    ensures 4 + |payloads[0]| <= |Concat(payloads)| && Concat(payloads)[4 + |payloads[0]|..] == Concat(payloads[1..])
  {
    hide EncodeLength, DecodeLength, Receive;
    var rest := Concat(payloads[1..]);
    ReceiveOneFrame(payloads[0], rest);
    assert (payloads[0] + rest)[..|payloads[0]|] == payloads[0];
  }

  /** Different lists of messages never produce the same bytes. */
  lemma {:induction false} UniquelyDecodable(p: seq<seq<byte>>, q: seq<seq<byte>>)
    requires forall i :: 0 <= i < |p| ==> |p[i]| <= 4194304
    requires forall i :: 0 <= i < |q| ==> |q[i]| <= 4194304
    requires Concat(p) == Concat(q)
    ensures p == q
  {
    if p != [] && q != [] {
      ReceiveConcat(p);
      ReceiveConcat(q);
      hide *;
      UniquelyDecodable(p[1..], q[1..]);
      assert p == [p[0]] + p[1..] && q == [q[0]] + q[1..];
    }
  }

  /** No strict prefix of a frame is mistaken for a message. */
  lemma NoPrefixDecodes(payload: seq<byte>, n: nat)
    requires |payload| < TWO_TO_THE_32
    requires n < |Frame(payload)|
    ensures !Receive(Frame(payload)[..n]).0.Payload?
  {
    hide EncodeLength, DecodeLength, Receive;
    ReceivePrefix(payload, n);
  }
}
