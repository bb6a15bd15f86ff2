/**
 A store that keeps the host's side of both transfers: it accepts contiguous chunks, commits once the whole
 resource has arrived, and serves reads of bounded size. Upload then download over it is the identity.
 */
module ReferenceStore {
  import opened Frame
  import opened Transfer
  import opened Upload

  /** What the store holds after some requests. */
  datatype Shelf = Filling(bytes: Bytes) | Full(bytes: Bytes) | Spoiled

  /** One request: it must name the upload, start where the last one ended, carry at most one chunk and commit
      exactly when the resource is complete. */
  function Shelve(s: Shelf, t: Target, q: PutRequest): Shelf {
    if !s.Filling? || q.target != t || q.offset != |s.bytes| || |q.data| > CHUNK
       || |s.bytes| + |q.data| > q.total || (q.commit <==> |s.bytes| + |q.data| != q.total) then Spoiled
    else if q.commit then Full(s.bytes + q.data)
    else Filling(s.bytes + q.data)
  }

  function ShelfAfter(t: Target, asked: seq<PutRequest>): Shelf {
    if asked == [] then Filling([]) else Shelve(ShelfAfter(t, asked[..|asked| - 1]), t, asked[|asked| - 1])
  }

  function ReceiptFor(t: Target, data: Bytes, digest: Digest): Receipt { Receipt(t.id, digest(data), |data|) }

  function Accepting(t: Target, digest: Digest): PutHost {
    (asked: seq<PutRequest>) =>
      match ShelfAfter(t, asked)
      case Spoiled => Rejected(NO_RECEIPT)
      case Filling(_) => Answered(NO_RECEIPT)
      case Full(bytes) => Answered(ReceiptFor(t, bytes, digest))
  }

  /** How the store cuts its replies: up to `pieceSize` bytes at a time, and either marking the last bytes as the
      end or, when lazy, sending one empty chunk after them. */
  datatype Style = Style(pieceSize: ReadRequest -> nat, lazy: bool)

  function Served(bytes: Bytes, receipt: Receipt, style: Style, q: ReadRequest): ReadReply {
    if q.id != receipt.id || q.offset < 0 || q.offset > |bytes| || q.limit <= 0 then Refused
    else
      var wanted := Min(q.limit, style.pieceSize(q));
      var end := Min(q.offset + (if wanted == 0 then 1 else wanted), |bytes|);
      ReadReply.Served(Chunk(bytes[q.offset..end], end,
                             if style.lazy then q.offset == |bytes| else end == |bytes|, receipt))
  }

  function Serving(bytes: Bytes, receipt: Receipt, style: Style): ReadHost {
    (asked: seq<ReadRequest>) => if asked == [] then Refused else Served(bytes, receipt, style, asked[|asked| - 1])
  }

  // ---------- the upload ----------

  /** What the plan's first n requests leave on the shelf. */
  lemma {:induction false} ShelfFills(t: Target, data: Bytes, digest: Digest, before: seq<PutRequest>, off: nat)
    requires off <= |data| && ShelfAfter(t, before) == Filling(data[..off])
    requires AnsweredUpTo(Accepting(t, digest), before, |before|)
    ensures var plan := before + Plan(t, data, off);
            ShelfAfter(t, plan) == Full(data) && AnsweredUpTo(Accepting(t, digest), plan, |plan|)
    decreases |data| - off
  {
    hide AnsweredUpTo, Plan, ShelfAfter, Accepting, RequestAt;
    var q := RequestAt(t, data, off);
    var sent := before + [q];
    ShelveOne(t, data, before, off);
    SoundAnswers(t, digest, sent);
    SendOne(Accepting(t, digest), before, q);
    PlanStep(t, data, off);
    if off + CHUNK < |data| {
      ShelfFills(t, data, digest, sent, off + CHUNK);
      assert before + Plan(t, data, off) == sent + Plan(t, data, off + CHUNK);
    } else {
      assert before + Plan(t, data, off) == sent;
    }
  }

  lemma SoundAnswers(t: Target, digest: Digest, asked: seq<PutRequest>)
    requires !ShelfAfter(t, asked).Spoiled?
    ensures var reply := Accepting(t, digest)(asked);
            && reply.Answered?
            && (ShelfAfter(t, asked).Full? ==> reply.receipt == ReceiptFor(t, ShelfAfter(t, asked).bytes, digest))
  {
    hide ShelfAfter;
  }

  lemma ShelveOne(t: Target, data: Bytes, before: seq<PutRequest>, off: nat)
    requires off <= |data| && ShelfAfter(t, before) == Filling(data[..off])
    ensures var sent, end := before + [RequestAt(t, data, off)], Min(off + CHUNK, |data|);
            ShelfAfter(t, sent) == if end == |data| then Full(data) else Filling(data[..end])
  {
    var q := RequestAt(t, data, off);
    var sent := before + [q];
    assert sent[..|sent| - 1] == before;
    assert data[..off] + q.data == data[..Min(off + CHUNK, |data|)];
  }

  lemma StoreAccepts(t: Target, data: Bytes, digest: Digest)
    ensures Accepts(Accepting(t, digest), t, data, digest) && ShelfAfter(t, Plan(t, data, 0)) == Full(data)
  {
    hide AnsweredUpTo, Plan, Accepting, ShelfAfter;
    NothingAsked(Accepting(t, digest), []);
    EmptyShelf(t, data);
    ShelfFills(t, data, digest, [], 0);
    assert [] + Plan(t, data, 0) == Plan(t, data, 0);
    SoundAnswers(t, digest, Plan(t, data, 0));
  }

  lemma EmptyShelf(t: Target, data: Bytes)
    ensures ShelfAfter(t, []) == Filling(data[..0])
  {
  }

  // ---------- the download ----------

  ghost predicate Walked(host: ReadHost, id: string, data: Bytes, n: nat) {
    && 0 <= OffsetAt(host, id, n) <= |data|
    && Data(host, id, n) == data[..OffsetAt(host, id, n)]
    && AllOk(host, id, n) && Open(host, id, n)
    && (n > 0 ==> ReplyAt(host, id, 0).Served?)
  }

  lemma ServeOne(data: Bytes, receipt: Receipt, style: Style, n: nat)
    requires |data| == receipt.size <= MAX_RESOURCE && |receipt.sha256| == 64
    requires var host := Serving(data, receipt, style);
             && 0 <= OffsetAt(host, receipt.id, n) <= |data|
             && (n > 0 ==> ReplyAt(host, receipt.id, 0).Served?)
    ensures var host, id := Serving(data, receipt, style), receipt.id;
            var off := OffsetAt(host, id, n);
            && ReplyAt(host, id, n) == Served(data, receipt, style, ReadRequest(id, off, CHUNK))
            && ReplyAt(host, id, n).Served? && ReplyAt(host, id, 0).Served? && Declared(host, id) == receipt
  {
    var host, id := Serving(data, receipt, style), receipt.id;
    NextAsked(host, id, n);
    NextAsked(host, id, 0);
  }

  lemma ServedBytes(data: Bytes, receipt: Receipt, style: Style, off: int)
    requires 0 <= off <= |data|
    ensures var reply := Served(data, receipt, style, ReadRequest(receipt.id, off, CHUNK));
            && reply.Served? && reply.chunk.receipt == receipt
            && var c := reply.chunk;
               && off <= c.nextOffset <= |data| && |c.data| == c.nextOffset - off
               && data[..off] + c.data == data[..c.nextOffset]
               && (c.eof ==> c.nextOffset == |data|) && (!c.eof ==> c.nextOffset > off)
  {
  }

  lemma ServedChunkOk(data: Bytes, receipt: Receipt, style: Style, n: nat)
    requires |data| == receipt.size <= MAX_RESOURCE && |receipt.sha256| == 64
    requires Walked(Serving(data, receipt, style), receipt.id, data, n)
    ensures var host, id := Serving(data, receipt, style), receipt.id;
            && ChunkOk(host, id, n) && Declared(host, id) == receipt
            && 0 <= OffsetAt(host, id, n + 1) <= |data|
            && Data(host, id, n + 1) == data[..OffsetAt(host, id, n + 1)]
            && (ChunkAt(host, id, n).eof ==> OffsetAt(host, id, n + 1) == |data|)
            && (!ChunkAt(host, id, n).eof ==> OffsetAt(host, id, n + 1) > OffsetAt(host, id, n))
  {
    hide Served, Serving, AllOk, Open, Asked, Data, ReplyAt, OffsetAt;
    var host, id := Serving(data, receipt, style), receipt.id;
    ServeOne(data, receipt, style, n);
    ServedBytes(data, receipt, style, OffsetAt(host, id, n));
    Advance(host, id, n);
  }

  lemma {:induction false} Walk(data: Bytes, receipt: Receipt, style: Style, digest: Digest, n: nat) returns (k: nat)
    requires |data| == receipt.size <= MAX_RESOURCE && |receipt.sha256| == 64 && receipt.sha256 == digest(data)
    requires Walked(Serving(data, receipt, style), receipt.id, data, n)
    ensures var host := Serving(data, receipt, style);
            Intact(host, receipt.id, digest, k) && Data(host, receipt.id, k) == data
    decreases |data| - OffsetAt(Serving(data, receipt, style), receipt.id, n)
  {
    hide ChunkOk, ChunkAt, Data, OffsetAt, ReplyAt, Declared;
    var host, id := Serving(data, receipt, style), receipt.id;
    ServedChunkOk(data, receipt, style, n);
    k := n + 1;
    if ChunkAt(host, id, n).eof {
      assert data[..|data|] == data;
      IntactIff(host, id, digest, k);
    } else {
      assert ReplyAt(host, id, 0).Served? by { FirstServed(host, id, n); }
      k := Walk(data, receipt, style, digest, n + 1);
    }
  }

  lemma FirstServed(host: ReadHost, id: string, n: nat)
    requires ChunkOk(host, id, n)
    ensures ReplyAt(host, id, 0).Served?
  {
  }

  /** Upload then download is the identity. For every resource of at most 256 MiB - the empty one and exact
      multiples of the chunk size included - the store accepts the upload, and every way of serving what it
      then holds is an intact conversation that carries exactly the original bytes. */
  lemma RoundTrip(t: Target, data: Bytes, digest: Digest, style: Style) returns (n: nat)
    requires |data| <= MAX_RESOURCE && |digest(data)| == 64
    ensures Accepts(Accepting(t, digest), t, data, digest)
    ensures var held := ShelfAfter(t, Plan(t, data, 0));
            && held == Full(data)
            && var host := Serving(held.bytes, ReceiptFor(t, held.bytes, digest), style);
               Intact(host, t.id, digest, n) && Data(host, t.id, n) == data
  {
    StoreAccepts(t, data, digest);
    var receipt := ReceiptFor(t, data, digest);
    assert Walked(Serving(data, receipt, style), t.id, data, 0);
    n := Walk(data, receipt, style, digest, 0);
  }

  /** The two loops against that store. */
  method UploadThenDownload(t: Target, data: Bytes, digest: Digest, style: Style)
    returns (put: PutResult, got: ReadResult, copy: Bytes)
    requires |digest(data)| == 64
    ensures |data| <= MAX_RESOURCE ==> put == Stored(ReceiptFor(t, data, digest)) && got.Done? && copy == data
    ensures |data| > MAX_RESOURCE ==> put.TooLarge? && copy == []
  {
    got, copy := Mismatch, [];
    var sent;
    put, sent := PutResource(Accepting(t, digest), t, data, digest);
    if put.TooLarge? {
      return;
    }
    ghost var n := RoundTrip(t, data, digest, style);
    var held := ShelfAfter(t, sent);
    assert put.Stored?;
    var host := Serving(held.bytes, put.receipt, style);
    var steps;
    var takesAll := (i: nat) => WriteReply(|ChunkAt(host, t.id, i).data|, false);
    var asked;
    got, copy, steps, asked := ReadResourceTo(host, t.id, takesAll, digest);
    assert Intact(host, t.id, digest, n) && AllTaken(host, t.id, takesAll, n);
    OneEnd(host, t.id, digest, n, steps);
  }

  lemma OneEnd(host: ReadHost, id: string, digest: Digest, m: nat, n: nat)
    requires Intact(host, id, digest, m) && Intact(host, id, digest, n)
    ensures m == n
  {
    EndsOnce(host, id, digest, m - 1);
  }

  /** A stored upload and an intact download that carry the same receipt carry the same bytes, whatever the two
      hosts did in between - unless the digest collides on them. */
  lemma ReceiptNamesBytes(put: PutHost, t: Target, data: Bytes, get: ReadHost, id: string, digest: Digest, n: nat)
    requires Accepts(put, t, data, digest) && Intact(get, id, digest, n)
    requires put(Plan(t, data, 0)).receipt == Declared(get, id)
    ensures id == t.id && |Data(get, id, n)| == |data| && digest(Data(get, id, n)) == digest(data)
    ensures (digest(Data(get, id, n)) == digest(data) ==> Data(get, id, n) == data) ==> Data(get, id, n) == data
  {
    IntactCarries(get, id, digest, n);
  }
}
