/**
 Frames: a 4-byte big-endian length and a payload. The writer loops over partial writes; the reader takes
 exactly one frame. Encoding and decoding of the payload itself is a parameter.
 */
module Frame {
  import opened Basics

  type Byte = x: int | 0 <= x < 256 witness 0
  type Bytes = seq<Byte>

  const DEFAULT_MAX := 0x80_0000      // 8 MiB
  const WORD := 0x1_0000_0000         // 2^32

  /** `binary.BigEndian.PutUint32(header, uint32(n))`: the conversion keeps the low 32 bits. */
  function Header(n: nat): (h: Bytes)
    ensures |h| == 4
  {
    var low := n % WORD;                  // each shift by 8 bits drops the byte below it
    var top24 := low / 0x100;
    var top16 := top24 / 0x100;
    [top16 / 0x100, top16 % 0x100, top24 % 0x100, low % 0x100]
  }

  function SizeOf(h: Bytes): nat
    requires |h| >= 4
  {
    h[0] as int * 0x100_0000 + h[1] as int * 0x1_0000 + h[2] as int * 0x100 + h[3] as int
  }

  lemma SizeOfHeader(n: nat)
    ensures SizeOf(Header(n)) == n % WORD
  {
  }

  /** The bytes of the header, most significant first, of the low 32 bits of the length. */
  lemma HeaderBytes(n: nat)
    ensures var low := n % 0x1_0000_0000;
            Header(n) == [low / 0x100_0000, low / 0x1_0000 % 0x100, low / 0x100 % 0x100, low % 0x100]
  {
  }

  /** No other four bytes denote that length. */
  lemma HeaderOnly(n: nat, h: Bytes)
    requires |h| == 4
    ensures h == Header(n) <==>
            h[0] as int * 0x100_0000 + h[1] as int * 0x1_0000 + h[2] as int * 0x100 + h[3] as int == n % 0x1_0000_0000
  {
    SizeOfHeader(n);
    SizesDiffer(h, Header(n));
    hide Header;
  }

  function Upper2(h: Bytes): int
    requires |h| >= 4
  {
    h[0] as int * 0x100 + h[1] as int
  }

  function Upper3(h: Bytes): int
    requires |h| >= 4
  {
    Upper2(h) * 0x100 + h[2] as int
  }

  lemma SizesDiffer(g: Bytes, h: Bytes)
    requires |g| == |h| == 4
    ensures SizeOf(g) == SizeOf(h) ==> g == h
  {
    if SizeOf(g) == SizeOf(h) {
      LastByte(Upper3(g), Upper3(h), g[3], h[3]);
      LastByte(Upper2(g), Upper2(h), g[2], h[2]);
      LastByte(g[0] as int, h[0] as int, g[1], h[1]);
    }
  }

  lemma LastByte(a: int, b: int, x: Byte, y: Byte)
    requires 0x100 * a + x as int == 0x100 * b + y as int
    ensures a == b && x == y
  {
  }

  function FrameOf(payload: Bytes): Bytes { Header(|payload|) + payload }

  function Limit(maxBytes: int): nat { if maxBytes <= 0 then DEFAULT_MAX else maxBytes }

  predicate Sendable(payload: Bytes, maxBytes: int) { 1 <= |payload| <= Limit(maxBytes) }

  // ---------- writing ----------

  /** What one call of the writer does: it accepts n bytes and may report an error. By the contract of
      writers it never accepts more than it is given; n may be 0 or less. */
  datatype WriteReply = WriteReply(n: int, failed: bool)

  class ByteSink {
    var contents: Bytes
    var calls: nat
    const script: nat -> WriteReply

    constructor (script: nat -> WriteReply)
      ensures contents == [] && calls == 0 && this.script == script
    {
      contents, calls := [], 0;
      this.script := script;
    }

    method Write(value: Bytes) returns (n: int, failed: bool)
      modifies this
      ensures calls == old(calls) + 1
      ensures n == if script(old(calls)).n <= |value| then script(old(calls)).n else |value|
      ensures contents == old(contents) + if n > 0 then value[..n] else []
      ensures failed == script(old(calls)).failed
    {
      var reply := script(calls);
      n := if reply.n <= |value| then reply.n else |value|;
      failed := reply.failed;
      calls := calls + 1;
      contents := contents + if n > 0 then value[..n] else [];
    }
  }

  /** Writes value in as many calls as the writer needs, at most one a byte. What reaches the stream is always
      a prefix of value, all of it on success; and it fails only if the writer reported an error or no progress. */
  method WriteAll(sink: ByteSink, value: Bytes) returns (ok: bool)
    modifies sink
    ensures old(sink.contents) <= sink.contents <= old(sink.contents) + value
    ensures ok ==> sink.contents == old(sink.contents) + value
    ensures sink.calls - old(sink.calls) <= |value|
    ensures !ok ==>
              sink.calls > old(sink.calls) && (sink.script(sink.calls - 1).failed || sink.script(sink.calls - 1).n <= 0)
  {
    var rest := value;
    while |rest| > 0
      invariant sink.contents + rest == old(sink.contents) + value
      invariant old(sink.contents) <= sink.contents
      invariant 0 <= sink.calls - old(sink.calls) <= |value| - |rest|
      decreases |rest|
    {
      var n, failed := sink.Write(rest);
      assert sink.contents <= old(sink.contents) + value;
      if failed {
        return false;
      }
      if n <= 0 {
        return false;
      }
      rest := rest[n..];
    }
    return true;
  }

  datatype WriteResult = Written | Unencodable | BadSize | Broken

  /** `encoded` is the marshalled value, or nothing when it cannot be marshalled. */
  method WriteFrame(sink: ByteSink, encoded: Option<Bytes>, maxBytes: int) returns (r: WriteResult)
    modifies sink
    ensures r.Unencodable? <==> encoded.None?
    ensures r.BadSize? <==> encoded.Some? && !Sendable(encoded.value, maxBytes)
    ensures r.Unencodable? || r.BadSize? ==> sink.contents == old(sink.contents)
    ensures r.Written? ==> sink.contents == old(sink.contents) + FrameOf(encoded.value)
    ensures r.Broken? ==> old(sink.contents) <= sink.contents <= old(sink.contents) + FrameOf(encoded.value)
  {
    if encoded.None? {
      return Unencodable;
    }
    var payload := encoded.value;
    if |payload| == 0 || |payload| > Limit(maxBytes) {
      return BadSize;
    }
    var header := Header(|payload|);
    var ok := WriteAll(sink, header);
    assert old(sink.contents) + header + payload == old(sink.contents) + FrameOf(payload);
    if !ok {
      return Broken;
    }
    ok := WriteAll(sink, payload);
    if !ok {
      return Broken;
    }
    return Written;
  }

  // ---------- reading ----------

  datatype ReadError = NoHeader(atEnd: bool) | SizeOutOfRange | ShortPayload | BadPayload
  datatype Parsed<V> = Got(value: V, consumed: nat) | Failed(error: ReadError, consumed: nat)

  /** Decoding a payload: strict, and total. */
  type Decoder<!V> = Bytes -> Option<V>

  /** The frame at the head of a stream, and how much of the stream it takes up. A stream that ends early is
      consumed to its end. */
  function Parse<V>(s: Bytes, maxBytes: int, decode: Decoder<V>): Parsed<V> {
    if |s| < 4 then Failed(NoHeader(s == []), |s|)
    else
      var size := SizeOf(s);
      if size <= 0 || size > Limit(maxBytes) then Failed(SizeOutOfRange, 4)
      else if |s| < 4 + size then Failed(ShortPayload, |s|)
      else
        match decode(s[4..4 + size])
        case None => Failed(BadPayload, 4 + size)
        case Some(v) => Got(v, 4 + size)
  }

  class ByteSource {
    const data: Bytes
    var pos: nat

    ghost predicate Valid()
      reads this
    {
      pos <= |data|
    }

    ghost function Rest(): Bytes
      requires Valid()
      reads this
    {
      data[pos..]
    }

    constructor (data: Bytes)
      ensures Valid() && Rest() == data && pos == 0
    {
      this.data, pos := data, 0;
    }

    /** `io.ReadFull`: exactly n bytes, or whatever was left and an error. */
    method ReadFull(n: nat) returns (buffer: Bytes, ok: bool)
      requires Valid()
      modifies this
      ensures Valid() && ok == (n <= |old(Rest())|)
      ensures pos == old(pos) + if ok then n else |old(Rest())|
      ensures ok ==> buffer == old(Rest())[..n]
    {
      ok := n <= |data| - pos;
      buffer := if ok then data[pos..pos + n] else data[pos..];
      pos := pos + |buffer|;
    }
  }

  /** Reads exactly the frame that `Parse` finds, and consumes exactly what it says. */
  method ReadFrame<V>(source: ByteSource, maxBytes: int, decode: Decoder<V>) returns (r: Parsed<V>)
    requires source.Valid()
    modifies source
    ensures source.Valid() && r == Parse(old(source.Rest()), maxBytes, decode)
    ensures source.pos == old(source.pos) + r.consumed
  {
    var left := |source.data| - source.pos;
    ghost var rest := source.Rest();
    var header, ok := source.ReadFull(4);
    if !ok {
      return Failed(NoHeader(left == 0), left);
    }
    var size := SizeOf(header);
    if size <= 0 || size > Limit(maxBytes) {
      return Failed(SizeOutOfRange, 4);
    }
    var payload;
    payload, ok := source.ReadFull(size);
    if !ok {
      return Failed(ShortPayload, left);
    }
    assert payload == rest[4..4 + size];
    match decode(payload)
    case None => return Failed(BadPayload, 4 + size);
    case Some(v) => return Got(v, 4 + size);
  }

  // ---------- round trips ----------

  /** A sent frame comes back, whatever follows it, with exactly its own bytes consumed - if and only if the
      payload is shorter than 2^32 bytes. */
  lemma RoundTripIff<V>(payload: Bytes, rest: Bytes, maxBytes: int, decode: Decoder<V>)
    requires Sendable(payload, maxBytes) && decode(payload).Some?
    ensures Parse(FrameOf(payload) + rest, maxBytes, decode) == Got(decode(payload).value, 4 + |payload|) <==>
            |payload| < WORD
  {
    var s := FrameOf(payload) + rest;
    SizeOfHeader(|payload|);
    assert s[..4] == Header(|payload|);
    assert SizeOf(s) == |payload| % WORD;
    if |payload| < WORD {
      assert s[4..4 + |payload|] == payload;
    }
  }

  /** No proper prefix of a frame is taken for a frame. */
  lemma PrefixRejected<V>(payload: Bytes, n: nat, maxBytes: int, decode: Decoder<V>)
    requires Sendable(payload, maxBytes) && |payload| < WORD && n < |FrameOf(payload)|
    ensures Parse(FrameOf(payload)[..n], maxBytes, decode) ==
            Failed(if n < 4 then NoHeader(n == 0) else ShortPayload, n)
  {
    SizeOfHeader(|payload|);
    var s := FrameOf(payload)[..n];
    if n >= 4 {
      assert s[..4] == Header(|payload|);
      assert SizeOf(s) == |payload|;
    }
  }

  /** The reader refuses a size exactly if the header denotes 0 or more than the limit, 8 MiB by default, and then it
      has taken only the header. */
  lemma SizeRefusedIff<V>(s: Bytes, maxBytes: int, decode: Decoder<V>)
    requires |s| >= 4
    ensures var size := s[0] as int * 0x100_0000 + s[1] as int * 0x1_0000 + s[2] as int * 0x100 + s[3] as int;
            Parse(s, maxBytes, decode) == Failed(SizeOutOfRange, 4) <==>
            size == 0 || size > (if maxBytes <= 0 then 8 * 1024 * 1024 else maxBytes)
    ensures forall n: nat :: Parse(s, maxBytes, decode) == Failed(SizeOutOfRange, n) ==> n == 4
  {
  }

  /** And it accepts nothing but whole frames: what it consumed is the frame of a payload of allowed size that
      decodes to the value. */
  lemma AcceptedIsFrame<V>(s: Bytes, maxBytes: int, decode: Decoder<V>, v: V, n: nat)
    requires Parse(s, maxBytes, decode) == Got(v, n)
    ensures 4 < n <= |s| && n - 4 < WORD && n - 4 <= (if maxBytes <= 0 then 8 * 1024 * 1024 else maxBytes)
    ensures s[..n] == FrameOf(s[4..n]) && decode(s[4..n]) == Some(v)
  {
    HeaderOnly(n - 4, s[..4]);
    hide Header;
    assert s[..n] == s[..4] + s[4..n];
  }

  function Stream(payloads: seq<Bytes>): Bytes {
    if payloads == [] then [] else FrameOf(payloads[0]) + Stream(payloads[1..])
  }

  /** Repeated `ReadFrame` up to the first failure: the values, and what is left. */
  function ParseAll<V>(s: Bytes, maxBytes: int, decode: Decoder<V>): (seq<V>, Bytes)
    decreases |s|
  {
    match Parse(s, maxBytes, decode)
    case Got(v, consumed) => var (vs, rest) := ParseAll(s[consumed..], maxBytes, decode); ([v] + vs, rest)
    case Failed(_, _) => ([], s)
  }

  predicate AllSendable(payloads: seq<Bytes>, maxBytes: int) {
    forall i :: 0 <= i < |payloads| ==> Sendable(payloads[i], maxBytes) && |payloads[i]| < WORD
  }

  /** The values of payloads that all decode. */
  ghost function Values<V>(payloads: seq<Bytes>, decode: Decoder<V>): seq<V>
    requires forall i :: 0 <= i < |payloads| ==> decode(payloads[i]).Some?
  {
    if payloads == [] then [] else [decode(payloads[0]).value] + Values(payloads[1..], decode)
  }

  lemma ParseAllStep<V>(p: Bytes, t: Bytes, maxBytes: int, decode: Decoder<V>)
    requires Sendable(p, maxBytes) && |p| < WORD && decode(p).Some?
    ensures var (vs, rest) := ParseAll(t, maxBytes, decode);
            ParseAll(FrameOf(p) + t, maxBytes, decode) == ([decode(p).value] + vs, rest)
  {
    RoundTripIff(p, t, maxBytes, decode);
    var s := FrameOf(p) + t;
    assert s[4 + |p|..] == t;
    hide Parse, FrameOf;
  }

  lemma ParseAllStops<V>(last: Bytes, n: nat, maxBytes: int, decode: Decoder<V>)
    requires Sendable(last, maxBytes) && |last| < WORD && n < |FrameOf(last)|
    ensures ParseAll(FrameOf(last)[..n], maxBytes, decode) == ([], FrameOf(last)[..n])
  {
    PrefixRejected(last, n, maxBytes, decode);
  }

  /** The reader of a concatenation of frames, possibly broken off inside one more, recovers exactly their
      values in order, and stops at the broken one. */
  lemma {:induction false} StreamRecovered<V>(payloads: seq<Bytes>, last: Bytes, n: nat, maxBytes: int,
        decode: Decoder<V>)
    requires AllSendable(payloads, maxBytes) && (forall i :: 0 <= i < |payloads| ==> decode(payloads[i]).Some?)
    requires Sendable(last, maxBytes) && |last| < WORD && n < |FrameOf(last)|
    ensures ParseAll(Stream(payloads) + FrameOf(last)[..n], maxBytes, decode) ==
            (Values(payloads, decode), FrameOf(last)[..n])
  {
    hide Parse, ParseAll, FrameOf;
    var tail := FrameOf(last)[..n];
    if payloads == [] {
      assert Stream(payloads) + tail == tail;
      ParseAllStops(last, n, maxBytes, decode);
    } else {
      var p, rest := payloads[0], payloads[1..];
      StreamRecovered(rest, last, n, maxBytes, decode);
      assert Stream(payloads) + tail == FrameOf(p) + (Stream(rest) + tail);
      ParseAllStep(p, Stream(rest) + tail, maxBytes, decode);
    }
  }
}
