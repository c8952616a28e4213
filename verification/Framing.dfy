/** `framing.py`: a payload travels behind its length, four bytes big-endian. */
module Framing {
  import opened Options

  newtype byte = x: int | 0 <= x < 256

  type Bytes = seq<byte>

  const HEADER_SIZE := 4
  const LENGTH_BOUND := 0x1_0000_0000

  // ---- the header ---------------------------------------------------------------------------

  /** The low `width` bytes of `n`, most significant first. */
  function BigEndian(n: nat, width: nat): (h: Bytes)
    ensures |h| == width
  {
    if width == 0 then [] else BigEndian(n / 0x100, width - 1) + [(n % 0x100) as byte]
  }

  function FromBigEndian(h: Bytes): nat {
    if h == [] then 0 else FromBigEndian(h[..|h| - 1]) * 0x100 + h[|h| - 1] as nat
  }

  function Power256(width: nat): nat {
    if width == 0 then 1 else 0x100 * Power256(width - 1)
  }

  function Pack(n: nat): Bytes
    requires n < LENGTH_BOUND
  {
    BigEndian(n, HEADER_SIZE)
  }

  function Unpack(h: Bytes): nat
    requires |h| == HEADER_SIZE
  {
    FromBigEndian(h)
  }

  lemma {:induction false} NumberRoundTrip(n: nat, width: nat)
    requires n < Power256(width)
    ensures FromBigEndian(BigEndian(n, width)) == n
  {
    if width > 0 {
      NumberRoundTrip(n / 0x100, width - 1);
      assert BigEndian(n, width)[..width - 1] == BigEndian(n / 0x100, width - 1);
    }
  }

  lemma {:induction false} BytesRoundTrip(h: Bytes)
    ensures FromBigEndian(h) < Power256(|h|)
    ensures BigEndian(FromBigEndian(h), |h|) == h
  {
    if h != [] {
      var n, last := FromBigEndian(h), |h| - 1;
      BytesRoundTrip(h[..last]);
      assert n / 0x100 == FromBigEndian(h[..last]) && n % 0x100 == h[last] as nat;
      assert h == h[..last] + [h[last]];
    }
  }

  lemma UnpackPack(n: nat)
    requires n < LENGTH_BOUND
    ensures Unpack(Pack(n)) == n
  {
    assert Power256(2) == 0x1_0000 && Power256(4) == LENGTH_BOUND;
    NumberRoundTrip(n, HEADER_SIZE);
  }

  lemma PackUnpack(h: Bytes)
    requires |h| == HEADER_SIZE
    ensures Unpack(h) < LENGTH_BOUND && Pack(Unpack(h)) == h
  {
    assert Power256(2) == 0x1_0000 && Power256(4) == LENGTH_BOUND;
    BytesRoundTrip(h);
  }

  /** The first byte of a header is the most significant one. */
  lemma {:induction false} HeaderBytes(h: Bytes)
    requires |h| == HEADER_SIZE
    ensures Unpack(h) == h[0] as nat * 0x100_0000 + h[1] as nat * 0x1_0000 + h[2] as nat * 0x100 + h[3] as nat
  {
    assert h[..3][..2] == h[..2] && h[..2][..1] == h[..1] && h[..1][..0] == [];
    assert FromBigEndian(h[..1]) == h[0] as nat;
    assert FromBigEndian(h[..2]) == h[0] as nat * 0x100 + h[1] as nat;
    assert FromBigEndian(h[..3]) == h[0] as nat * 0x1_0000 + h[1] as nat * 0x100 + h[2] as nat;
  }

  // ---- frame --------------------------------------------------------------------------------

  function Frame(payload: Bytes): Bytes
    requires |payload| < LENGTH_BOUND
  {
    Pack(|payload|) + payload
  }

  predicate Packable(payloads: seq<Bytes>) {
    forall i :: 0 <= i < |payloads| ==> |payloads[i]| < LENGTH_BOUND
  }

  predicate Within(payloads: seq<Bytes>, limit: nat) {
    Packable(payloads) && forall i :: 0 <= i < |payloads| ==> |payloads[i]| <= limit
  }

  function Frames(payloads: seq<Bytes>): Bytes
    requires Packable(payloads)
  {
    if payloads == [] then [] else Frame(payloads[0]) + Frames(payloads[1..])
  }

  // ---- read_message -------------------------------------------------------------------------

  datatype Message = Payload(data: Bytes) | EndOfStream | TooLarge(length: nat)

  /** An asyncio stream reader: the bytes still to come before the peer closes. */
  class StreamReader {
    var stream: Bytes

    constructor (stream: Bytes)
      ensures this.stream == stream
    {
      this.stream := stream;
    }

    /** `None` stands for `IncompleteReadError`, which swallows what was left. */
    method ReadExactly(n: nat) returns (r: Option<Bytes>)
      modifies this
      ensures n <= old(|stream|) ==> r == Some(old(stream)[..n]) && stream == old(stream)[n..]
      ensures n > old(|stream|) ==> r == None && stream == []
    {
      if n <= |stream| {
        r := Some(stream[..n]);
        stream := stream[n..];
      } else {
        r := None;
        stream := [];
      }
    }
  }

  method ReadMessage(reader: StreamReader, limit: nat) returns (m: Message)
    modifies reader
    ensures m == First(old(reader.stream), limit)
    ensures m.Payload? ==> reader.stream == old(reader.stream)[HEADER_SIZE + |m.data|..]
    ensures m.EndOfStream? ==> reader.stream == []
  {
    var header := reader.ReadExactly(HEADER_SIZE);
    if header.None? {
      return EndOfStream;
    }
    var length := Unpack(header.value);
    if length > limit {
      return TooLarge(length);
    }
    var body := reader.ReadExactly(length);
    match body
    case None => m := EndOfStream;
    case Some(data) => m := Payload(data);
  }

  /** What the next read of a stream yields. */
  function First(stream: Bytes, limit: nat): (m: Message)
    ensures m.Payload? ==> HEADER_SIZE + |m.data| <= |stream|
  {
    if |stream| < HEADER_SIZE then EndOfStream
    else
      var length := Unpack(stream[..HEADER_SIZE]);
      if length > limit then TooLarge(length)
      else if |stream| - HEADER_SIZE < length then EndOfStream
      else Payload(stream[HEADER_SIZE..][..length])
  }

  /** Reading until a message is not a payload: the payloads, and what ended them. */
  function ReadAll(stream: Bytes, limit: nat): (seq<Bytes>, Message)
    decreases |stream|
  {
    var m := First(stream, limit);
    if !m.Payload? then ([], m)
    else
      var (rest, end) := ReadAll(stream[HEADER_SIZE + |m.data|..], limit);
      ([m.data] + rest, end)
  }

  /** The serving loop around `read_message`. */
  method ReadLoop(reader: StreamReader, limit: nat) returns (payloads: seq<Bytes>, end: Message)
    modifies reader
    ensures (payloads, end) == ReadAll(old(reader.stream), limit)
  {
    payloads := [];
    ghost var all := ReadAll(reader.stream, limit);
    while true
      invariant var (rest, e) := ReadAll(reader.stream, limit); payloads + rest == all.0 && e == all.1
      decreases |reader.stream|
    {
      ghost var before := reader.stream;
      end := ReadMessage(reader, limit);
      if !end.Payload? {
        assert ReadAll(before, limit) == ([], end) && payloads + [] == payloads;
        return;
      }
      payloads := payloads + [end.data];
    }
  }

  // ---- main results -------------------------------------------------------------------------

  /** A whole frame at the head of a stream is read back, whatever follows it. */
  lemma FirstOfFrame(payload: Bytes, rest: Bytes, limit: nat)
    requires |payload| < LENGTH_BOUND
    ensures First(Frame(payload) + rest, limit) ==
            if |payload| > limit then TooLarge(|payload|) else Payload(payload)
    ensures (Frame(payload) + rest)[HEADER_SIZE + |payload|..] == rest
  {
    var stream := Frame(payload) + rest;
    assert stream[..HEADER_SIZE] == Pack(|payload|);
    UnpackPack(|payload|);
    assert stream[HEADER_SIZE..][..|payload|] == payload;
  }

  lemma FirstOfNothing(limit: nat)
    ensures First([], limit) == EndOfStream
  {}

  /** Part of a frame reads as the end of the stream: never as another payload. */
  lemma FirstOfTruncated(payload: Bytes, k: nat, limit: nat)
    requires |payload| <= limit && |payload| < LENGTH_BOUND && k < |Frame(payload)|
    ensures First(Frame(payload)[..k], limit) == EndOfStream
  {
    if k >= HEADER_SIZE {
      assert Frame(payload)[..k][..HEADER_SIZE] == Pack(|payload|);
      UnpackPack(|payload|);
    }
  }

  lemma ReadAllOfFrame(p: Bytes, more: Bytes, limit: nat)
    requires |p| <= limit && |p| < LENGTH_BOUND
    ensures ReadAll(Frame(p) + more, limit) == ([p] + ReadAll(more, limit).0, ReadAll(more, limit).1)
  {
    FirstOfFrame(p, more, limit);
  }

  lemma {:induction false} FramesThen(payloads: seq<Bytes>, tail: Bytes, limit: nat)
    requires Within(payloads, limit)
    ensures ReadAll(Frames(payloads) + tail, limit) ==
            (payloads + ReadAll(tail, limit).0, ReadAll(tail, limit).1)
  {
    hide Frame, ReadAll;
    if payloads == [] {
      assert Frames(payloads) + tail == tail;
      assert payloads + ReadAll(tail, limit).0 == ReadAll(tail, limit).0;
    } else {
      var p, more := payloads[0], Frames(payloads[1..]) + tail;
      assert Frames(payloads) + tail == Frame(p) + more;
      ReadAllOfFrame(p, more, limit);
      FramesThen(payloads[1..], tail, limit);
      assert payloads + ReadAll(tail, limit).0 == [p] + (payloads[1..] + ReadAll(tail, limit).0);
    }
  }

  /** Round trip: the concatenated frames of any payloads within the limit read back as those
      payloads and then the end of the stream. */
  lemma RoundTrip(payloads: seq<Bytes>, limit: nat)
    requires Within(payloads, limit)
    ensures ReadAll(Frames(payloads), limit) == (payloads, EndOfStream)
  {
    FramesThen(payloads, [], limit);
    assert Frames(payloads) + [] == Frames(payloads);
    assert ReadAll([], limit) == ([], EndOfStream) && payloads + [] == payloads;
  }

  /** Truncation: cutting the stream anywhere yields exactly the payloads whose frames are whole. */
  lemma {:induction false} Truncation(payloads: seq<Bytes>, k: nat, limit: nat) returns (n: nat)
    requires Within(payloads, limit) && k <= |Frames(payloads)|
    ensures n <= |payloads| && ReadAll(Frames(payloads)[..k], limit) == (payloads[..n], EndOfStream)
    ensures |Frames(payloads[..n])| <= k
    ensures n < |payloads| ==> k < |Frames(payloads[..n + 1])|
  {
    if payloads == [] {
      return 0;
    }
    var p, rest := payloads[0], Frames(payloads[1..]);
    var stream := Frames(payloads)[..k];
    if k < |Frame(p)| {
      n := 0;
      assert stream == Frame(p)[..k];
      FirstOfTruncated(p, k, limit);
      assert payloads[..1][0] == p && payloads[..1][1..] == [];
    } else {
      var j := k - |Frame(p)|;
      var m := Truncation(payloads[1..], j, limit);
      n := m + 1;
      assert stream == Frame(p) + rest[..j];
      FirstOfFrame(p, rest[..j], limit);
      assert payloads[..n][0] == p && payloads[..n][1..] == payloads[1..][..m];
      assert payloads[..n] == [p] + payloads[1..][..m];
      if n < |payloads| {
        assert payloads[..n + 1][0] == p && payloads[..n + 1][1..] == payloads[1..][..m + 1];
      }
    }
  }

  /** Oversize: the first frame over the limit ends the reading with its length, and every
      payload before it has been delivered. */
  lemma OversizeStops(payloads: seq<Bytes>, big: Bytes, rest: Bytes, limit: nat)
    requires Within(payloads, limit) && limit < |big| < LENGTH_BOUND
    ensures ReadAll(Frames(payloads) + (Frame(big) + rest), limit) == (payloads, TooLarge(|big|))
  {
    FramesThen(payloads, Frame(big) + rest, limit);
    FirstOfFrame(big, rest, limit);
    assert payloads + [] == payloads;
  }
}
