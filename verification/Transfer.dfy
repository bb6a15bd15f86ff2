/**
 Reading a resource in chunks from an untrusted host. The host is any function from the requests it has seen
 to its next reply; the digest is any function from bytes to hexadecimal text.
 */
module Transfer {
  import opened Frame

  const CHUNK := 0x4_0000            // 256 KiB
  const MAX_RESOURCE := 0x1000_0000  // 256 MiB

  type Digest = Bytes -> string

  datatype Receipt = Receipt(id: string, sha256: string, size: int)

  // ---------- reading a resource ----------

  datatype ReadRequest = ReadRequest(id: string, offset: int, limit: int)
  datatype Chunk = Chunk(data: Bytes, nextOffset: int, eof: bool, receipt: Receipt)
  datatype ReadReply = Refused | Served(chunk: Chunk)
  type ReadHost = seq<ReadRequest> -> ReadReply

  /** The first n requests, when every one of them was answered. */
  function Asked(host: ReadHost, id: string, n: nat): seq<ReadRequest> {
    if n == 0 then [] else
      var before := Asked(host, id, n - 1);
      before + [ReadRequest(id, if n == 1 then 0 else NextOf(host(before)), CHUNK)]
  }

  function NextOf(reply: ReadReply): int { if reply.Served? then reply.chunk.nextOffset else 0 }

  function ReplyAt(host: ReadHost, id: string, n: nat): ReadReply { host(Asked(host, id, n + 1)) }

  const NO_RECEIPT := Receipt("", "", 0)

  function ChunkAt(host: ReadHost, id: string, n: nat): Chunk {
    match ReplyAt(host, id, n)
    case Served(c) => c
    case Refused => Chunk([], 0, false, NO_RECEIPT)
  }

  /** The receipt that came with the first chunk. */
  function Declared(host: ReadHost, id: string): Receipt { ChunkAt(host, id, 0).receipt }

  function OffsetAt(host: ReadHost, id: string, n: nat): int { if n == 0 then 0 else NextOf(ReplyAt(host, id, n - 1)) }

  /** A chunk starts where the last one ended, makes progress unless it is the last, and stays in bounds. */
  ghost predicate CursorOk(host: ReadHost, id: string, n: nat) {
    var c := ChunkAt(host, id, n);
    c.nextOffset == OffsetAt(host, id, n) + |c.data| <= MAX_RESOURCE && (c.eof || c.data != [])
  }

  /** It carries the first chunk's receipt, which is one for this resource and covers the chunk. */
  ghost predicate ReceiptOk(host: ReadHost, id: string, n: nat) {
    var c, receipt := ChunkAt(host, id, n), Declared(host, id);
    && c.receipt == receipt && receipt.id == id && 0 <= receipt.size <= MAX_RESOURCE && |receipt.sha256| == 64
    && c.nextOffset <= receipt.size
  }

  ghost predicate ChunkOk(host: ReadHost, id: string, n: nat) {
    ReplyAt(host, id, 0).Served? && ReplyAt(host, id, n).Served? && CursorOk(host, id, n) && ReceiptOk(host, id, n)
  }

  /** The data of the first n chunks. */
  function Data(host: ReadHost, id: string, n: nat): Bytes {
    if n == 0 then [] else Data(host, id, n - 1) + ChunkAt(host, id, n - 1).data
  }

  /** None of the first n chunks is marked as the last. */
  ghost predicate Open(host: ReadHost, id: string, n: nat) { forall i: nat :: i < n ==> !ChunkAt(host, id, i).eof }

  /** A conversation of exactly n reads that amounts to one intact resource. */
  ghost predicate Intact(host: ReadHost, id: string, digest: Digest, n: nat) {
    && n > 0 && (forall i: nat :: i < n ==> ChunkOk(host, id, i))
    && Open(host, id, n - 1) && ChunkAt(host, id, n - 1).eof
    && OffsetAt(host, id, n) == Declared(host, id).size
    && digest(Data(host, id, n)) == Declared(host, id).sha256
  }

  /** What the destination does with the i-th write: how many bytes it takes, and whether it reports an error. */
  type Destination = nat -> WriteReply

  function Accepted(reply: WriteReply, length: nat): nat {
    if reply.n < 0 then 0 else if reply.n > length then length else reply.n
  }

  predicate TakesAll(reply: WriteReply, length: nat) { !reply.failed && reply.n == length }

  ghost predicate AllTaken(host: ReadHost, id: string, destination: Destination, n: nat) {
    forall i: nat :: i < n ==> TakesAll(destination(i), |ChunkAt(host, id, i).data|)
  }

  /** The host's conversation is an intact resource, and the destination takes all of it. */
  ghost predicate Succeeds(host: ReadHost, id: string, destination: Destination, digest: Digest) {
    exists n: nat :: Intact(host, id, digest, n) && AllTaken(host, id, destination, n)
  }

  lemma IntactIsLonger(host: ReadHost, id: string, digest: Digest, k: nat)
    requires Open(host, id, k)
    ensures forall n: nat :: Intact(host, id, digest, n) ==> n > k
  {
    forall n: nat | Intact(host, id, digest, n) ensures n > k {
      var last: nat := n - 1;
      assert ChunkAt(host, id, last).eof;
    }
  }

  lemma BadChunkSpoils(host: ReadHost, id: string, destination: Destination, digest: Digest, k: nat)
    requires Open(host, id, k) && !ChunkOk(host, id, k)
    ensures !Succeeds(host, id, destination, digest)
  {
    IntactIsLonger(host, id, digest, k);
    hide ChunkOk, Open;
  }

  lemma EndsOnce(host: ReadHost, id: string, digest: Digest, k: nat)
    requires Open(host, id, k) && ChunkAt(host, id, k).eof
    ensures forall n: nat :: Intact(host, id, digest, n) ==> n == k + 1
  {
    IntactIsLonger(host, id, digest, k);
    hide ChunkOk, ChunkAt;
  }

  lemma BadWriteSpoils(host: ReadHost, id: string, destination: Destination, digest: Digest, k: nat)
    requires Open(host, id, k) && !TakesAll(destination(k), |ChunkAt(host, id, k).data|)
    ensures !Succeeds(host, id, destination, digest)
  {
    IntactIsLonger(host, id, digest, k);
    hide ChunkOk, ChunkAt, Intact;
  }

  lemma Advance(host: ReadHost, id: string, n: nat)
    requires ChunkOk(host, id, n)
    ensures Asked(host, id, n + 1) == Asked(host, id, n) + [ReadRequest(id, OffsetAt(host, id, n), CHUNK)]
    ensures OffsetAt(host, id, n + 1) == ChunkAt(host, id, n).nextOffset ==
            OffsetAt(host, id, n) + |ChunkAt(host, id, n).data|
    ensures Data(host, id, n + 1) == Data(host, id, n) + ChunkAt(host, id, n).data
  {
  }

  /** What the destination has when a transfer ends: every chunk it took, and of a chunk that it failed on the
      part that it accepted. */
  function WrittenAfter(host: ReadHost, id: string, destination: Destination, steps: nat, r: ReadResult): Bytes
    requires steps >= 1
  {
    match r
    case Done => Data(host, id, steps)
    case Mismatch => Data(host, id, steps)
    case WriteFailed =>
      var data := ChunkAt(host, id, steps - 1).data;
      Data(host, id, steps - 1) + data[..Accepted(destination(steps - 1), |data|)]
    case _ => Data(host, id, steps - 1)
  }

  datatype ReadResult = Done | HostFailed | BadCursor | BadReceipt | WriteFailed | Mismatch

  ghost predicate AllOk(host: ReadHost, id: string, n: nat) { forall i: nat :: i < n ==> ChunkOk(host, id, i) }

  lemma RefusedChunk(host: ReadHost, id: string, n: nat)
    requires ReplyAt(host, id, n).Refused?
    ensures !ChunkOk(host, id, n)
  {
  }

  /** The two checks on a chunk: its cursor, and its receipt. */
  lemma ChunkChecks(host: ReadHost, id: string, n: nat)
    requires ReplyAt(host, id, 0).Served? && ReplyAt(host, id, n).Served?
    ensures var c, off, receipt := ChunkAt(host, id, n), OffsetAt(host, id, n), Declared(host, id);
            && (ChunkOk(host, id, n) <==> CursorOk(host, id, n) && ReceiptOk(host, id, n))
            && (CursorOk(host, id, n) <==>
                  !(c.nextOffset != off + |c.data| || (!c.eof && |c.data| == 0) || c.nextOffset > MAX_RESOURCE))
            && (ReceiptOk(host, id, n) <==>
                  !(receipt.id != id || c.receipt != receipt || receipt.size < 0 || receipt.size > MAX_RESOURCE
                    || |receipt.sha256| != 64 || c.nextOffset > receipt.size))
  {
  }

  lemma MoreOk(host: ReadHost, id: string, n: nat)
    requires ChunkOk(host, id, n) && AllOk(host, id, n)
    ensures AllOk(host, id, n + 1)
    ensures Open(host, id, n) && !ChunkAt(host, id, n).eof ==> Open(host, id, n + 1)
  {
  }

  lemma NextAsked(host: ReadHost, id: string, n: nat)
    ensures Asked(host, id, n + 1) == Asked(host, id, n) + [ReadRequest(id, OffsetAt(host, id, n), CHUNK)]
  {
  }

  lemma TookOne(host: ReadHost, id: string, destination: Destination, n: nat)
    requires AllTaken(host, id, destination, n) && TakesAll(destination(n), |ChunkAt(host, id, n).data|)
    ensures AllTaken(host, id, destination, n + 1)
  {
  }

  lemma IntactIff(host: ReadHost, id: string, digest: Digest, n: nat)
    requires n > 0 && AllOk(host, id, n) && Open(host, id, n - 1) && ChunkAt(host, id, n - 1).eof
    ensures Intact(host, id, digest, n) <==>
            OffsetAt(host, id, n) == Declared(host, id).size && digest(Data(host, id, n)) == Declared(host, id).sha256
  {
  }

  lemma LastChunkDecides(host: ReadHost, id: string, destination: Destination, digest: Digest, n: nat)
    requires n > 0 && AllOk(host, id, n) && Open(host, id, n - 1) && ChunkAt(host, id, n - 1).eof
    requires AllTaken(host, id, destination, n)
    ensures Succeeds(host, id, destination, digest) <==> Intact(host, id, digest, n)
    ensures Intact(host, id, digest, n) <==>
            OffsetAt(host, id, n) == Declared(host, id).size && digest(Data(host, id, n)) == Declared(host, id).sha256
  {
    EndsOnce(host, id, digest, n - 1);
    IntactIff(host, id, digest, n);
  }

  /** Streams a resource to its destination. It ends after at most the declared size plus one reads; it never
      writes more than the size of the receipt, nor more than 256 MiB; it succeeds exactly when the
      conversation is an intact resource and the destination takes it, and has then written exactly that. */
  method ReadResourceTo(host: ReadHost, id: string, destination: Destination, digest: Digest)
    returns (r: ReadResult, written: Bytes, steps: nat, asked: seq<ReadRequest>)
    ensures r.Done? <==> Succeeds(host, id, destination, digest)
    ensures r.Done? ==> Intact(host, id, digest, steps) && |written| == Declared(host, id).size
    ensures asked == Asked(host, id, steps)
    ensures |written| <= MAX_RESOURCE
    ensures written != [] ==> ReplyAt(host, id, 0).Served? && |written| <= Declared(host, id).size
    ensures steps >= 1 && AllOk(host, id, steps - 1) && Open(host, id, steps - 1)
    ensures r.HostFailed? ==> ReplyAt(host, id, steps - 1).Refused?
    ensures r.BadCursor? ==> ReplyAt(host, id, steps - 1).Served? && !CursorOk(host, id, steps - 1)
    ensures r.BadReceipt? ==> CursorOk(host, id, steps - 1) && !ReceiptOk(host, id, steps - 1)
    ensures r.WriteFailed? ==> !TakesAll(destination(steps - 1), |ChunkAt(host, id, steps - 1).data|)
    ensures r.Mismatch? ==> ChunkAt(host, id, steps - 1).eof && !Intact(host, id, digest, steps)
    ensures written == WrittenAfter(host, id, destination, steps, r)
    ensures steps > 1 ==> ReplyAt(host, id, 0).Served? && steps <= Declared(host, id).size + 1
  {
    var off := 0;
    var receipt := NO_RECEIPT;
    var hashed: Bytes := [];
    written, steps, asked := [], 0, [];
    while true
      invariant asked == Asked(host, id, steps) && off == OffsetAt(host, id, steps)
      invariant steps <= off == |written| && written == hashed == Data(host, id, steps)
      invariant off <= MAX_RESOURCE
      invariant steps > 0 ==> ReplyAt(host, id, 0).Served? && receipt == Declared(host, id) && off <= receipt.size
      invariant Open(host, id, steps) && AllOk(host, id, steps)
      invariant AllTaken(host, id, destination, steps)
      decreases MAX_RESOURCE - off
    {
      hide Asked, Data, Intact, AllTaken, Succeeds, ChunkOk, CursorOk, ReceiptOk, Open, AllOk;
      var at := steps;
      asked := asked + [ReadRequest(id, off, CHUNK)];
      NextAsked(host, id, steps);
      var reply := host(asked);
      assert reply == ReplyAt(host, id, at);
      steps := steps + 1;
      if reply.Refused? {
        RefusedChunk(host, id, at);
        BadChunkSpoils(host, id, destination, digest, at);
        r := HostFailed;
        return;
      }
      var c := reply.chunk;
      assert c == ChunkAt(host, id, at) && (at > 0 || ReplyAt(host, id, 0) == reply);
      hide ReplyAt, ChunkAt, OffsetAt;
      ChunkChecks(host, id, at);
      if c.nextOffset != off + |c.data| || (!c.eof && |c.data| == 0) || c.nextOffset > MAX_RESOURCE {
        BadChunkSpoils(host, id, destination, digest, at);
        r := BadCursor;
        return;
      }
      if off == 0 {
        receipt := c.receipt;
      }
      if receipt.id != id || c.receipt != receipt || receipt.size < 0 || receipt.size > MAX_RESOURCE
         || |receipt.sha256| != 64 || c.nextOffset > receipt.size {
        BadChunkSpoils(host, id, destination, digest, at);
        r := BadReceipt;
        return;
      }
      Advance(host, id, at);
      MoreOk(host, id, at);
      var taken := Accepted(destination(at), |c.data|);
      written := written + c.data[..taken];
      if !TakesAll(destination(at), |c.data|) {
        BadWriteSpoils(host, id, destination, digest, at);
        r := WriteFailed;
        return;
      }
      TookOne(host, id, destination, at);
      hashed := hashed + c.data;
      off := c.nextOffset;
      if c.eof {
        LastChunkDecides(host, id, destination, digest, steps);
        if off != receipt.size || digest(hashed) != receipt.sha256 {
          r := Mismatch;
          return;
        }
        r := Done;
        return;
      }
    }
    r := Done;
  }

  lemma {:induction false} DataLength(host: ReadHost, id: string, n: nat)
    requires AllOk(host, id, n)
    ensures |Data(host, id, n)| == OffsetAt(host, id, n)
  {
    if n > 0 {
      DataLength(host, id, n - 1);
      Advance(host, id, n - 1);
    }
  }

  lemma IntactCarries(host: ReadHost, id: string, digest: Digest, n: nat)
    requires Intact(host, id, digest, n)
    ensures Declared(host, id) == Receipt(id, digest(Data(host, id, n)), |Data(host, id, n)|)
  {
    assert ChunkOk(host, id, n - 1);
    DataLength(host, id, n);
  }

  /** What is asked for while every chunk is good: each time this resource, from where the data so far ends, and
      256 KiB of it. */
  lemma {:induction false} AsksInOrder(host: ReadHost, id: string, n: nat, i: nat)
    requires AllOk(host, id, n) && i <= n
    ensures |Asked(host, id, n + 1)| == n + 1
    ensures Asked(host, id, n + 1)[i] == ReadRequest(id, |Data(host, id, i)|, 256 * 1024)
  {
    hide ChunkOk, Data;
    if n > 0 {
      AsksInOrder(host, id, n - 1, if i < n then i else 0);
    }
    DataLength(host, id, n);
    NextAsked(host, id, n);
  }

  /** The i-th chunk of an intact resource, spelled out: it begins where the data so far ends, is empty only at the
      end, stays within 256 MiB and the declared size, and repeats the first chunk's receipt, which is for this id. */
  ghost predicate GoodChunk(host: ReadHost, id: string, i: nat, last: bool) {
    ReplyAt(host, id, i).Served? &&
    var c, first := ReplyAt(host, id, i).chunk, Declared(host, id);
    && c.nextOffset == |Data(host, id, i)| + |c.data| <= 256 * 1024 * 1024 && c.nextOffset <= first.size
    && c.receipt == first && first.id == id && 0 <= first.size <= 256 * 1024 * 1024 && |first.sha256| == 64
    && c.eof == last && (!last ==> c.data != [])
  }

  lemma OneGoodChunk(host: ReadHost, id: string, i: nat, last: bool)
    requires AllOk(host, id, i) && ReplyAt(host, id, 0).Served?
    ensures GoodChunk(host, id, i, last) <==> ChunkOk(host, id, i) && ChunkAt(host, id, i).eof == last
  {
    hide AllOk;
    DataLength(host, id, i);
    hide Data;
  }

  lemma {:induction false} GoodChunks(host: ReadHost, id: string, n: nat)
    requires ReplyAt(host, id, 0).Served?
    ensures (forall i: nat :: i < n ==> GoodChunk(host, id, i, false)) <==> AllOk(host, id, n) && Open(host, id, n)
  {
    hide ChunkOk, GoodChunk, ChunkAt, ReplyAt;
    if n > 0 {
      GoodChunks(host, id, n - 1);
      if AllOk(host, id, n - 1) {
        OneGoodChunk(host, id, n - 1, false);
      }
    }
  }

  /** A conversation is intact exactly if its chunks are good ones, only the last of them marked as the end, and its
      data has the size and digest of the receipt. */
  lemma IntactMeans(host: ReadHost, id: string, digest: Digest, n: nat)
    requires n > 0
    ensures Intact(host, id, digest, n) <==>
            && (forall i: nat :: i < n - 1 ==> GoodChunk(host, id, i, false)) && GoodChunk(host, id, n - 1, true)
            && |Data(host, id, n)| == Declared(host, id).size && digest(Data(host, id, n)) == Declared(host, id).sha256
  {
    if ReplyAt(host, id, 0).Served? {
      GoodChunks(host, id, n - 1);
      hide GoodChunk, ReplyAt, ChunkAt, Data;
      if AllOk(host, id, n - 1) {
        OneGoodChunk(host, id, n - 1, true);
        if ChunkOk(host, id, n - 1) {
          MoreOk(host, id, n - 1);
          DataLength(host, id, n);
        }
      }
    } else {
      assert !ChunkOk(host, id, 0);
      assert !GoodChunk(host, id, 0, false) && !GoodChunk(host, id, 0, true);
      hide ReplyAt, ChunkAt, Data, ChunkOk, GoodChunk;
    }
  }

  /** Over any two hosts: transfers that end with equal receipts are of the same resource and size, and carry
      equal bytes unless the digest collides on them. */
  lemma EqualReceiptsEqualBytes(h1: ReadHost, h2: ReadHost, id1: string, id2: string, digest: Digest, m: nat, n: nat)
    requires Intact(h1, id1, digest, m) && Intact(h2, id2, digest, n) && Declared(h1, id1) == Declared(h2, id2)
    ensures var a, b := Data(h1, id1, m), Data(h2, id2, n);
            id1 == id2 && |a| == |b| && digest(a) == digest(b) && ((digest(a) == digest(b) ==> a == b) ==> a == b)
  {
    IntactCarries(h1, id1, digest, m);
    IntactCarries(h2, id2, digest, n);
  }
}
