/**
 Uploading a resource in chunks to an untrusted host, and the round trip through a store that keeps its side
 of the bargain.
 */
module Upload {
  import opened Frame
  import opened Transfer

  datatype Target = Target(id: string, name: string, contentType: string)
  datatype PutRequest = PutRequest(target: Target, offset: int, total: int, commit: bool, data: Bytes)
  datatype PutReply = Rejected(receipt: Receipt) | Answered(receipt: Receipt)

  /** Any host: its reply may depend on everything it has been sent. */
  type PutHost = seq<PutRequest> -> PutReply

  function Min(a: int, b: int): int { if a <= b then a else b }

  function RequestAt(t: Target, data: Bytes, off: nat): PutRequest
    requires off <= |data|
  {
    var end := Min(off + CHUNK, |data|);
    PutRequest(t, off, |data|, end == |data|, data[off..end])
  }

  /** The requests of an upload from offset off on. */
  function Plan(t: Target, data: Bytes, off: nat): seq<PutRequest>
    requires off <= |data|
    decreases |data| - off
  {
    [RequestAt(t, data, off)] + if off + CHUNK >= |data| then [] else Plan(t, data, off + CHUNK)
  }

  lemma PlanStep(t: Target, data: Bytes, off: nat)
    requires off <= |data|
    ensures off + CHUNK >= |data| ==> Plan(t, data, off) == [RequestAt(t, data, off)]
    ensures off + CHUNK < |data| ==> Plan(t, data, off) == [RequestAt(t, data, off)] + Plan(t, data, off + CHUNK)
  {
  }

  /** The host answered each of the first n requests without an error. */
  ghost predicate AnsweredUpTo(host: PutHost, plan: seq<PutRequest>, n: nat)
    requires n <= |plan|
  {
    forall i: nat :: 1 <= i <= n ==> host(plan[..i]).Answered?
  }

  lemma NothingAsked(host: PutHost, sent: seq<PutRequest>)
    ensures AnsweredUpTo(host, sent, 0)
  {
  }

  lemma SendOne(host: PutHost, before: seq<PutRequest>, q: PutRequest)
    requires AnsweredUpTo(host, before, |before|)
    ensures var sent := before + [q];
            && AnsweredUpTo(host, sent, |before|)
            && (AnsweredUpTo(host, sent, |sent|) <==> host(sent).Answered?)
  {
    var sent := before + [q];
    assert sent[..|sent|] == sent;
    forall i: nat | 1 <= i <= |before| ensures host(sent[..i]).Answered? {
      assert sent[..i] == before[..i];
    }
  }

  lemma RefusedStays(host: PutHost, sent: seq<PutRequest>, rest: seq<PutRequest>)
    requires sent != [] && host(sent).Rejected?
    ensures !AnsweredUpTo(host, sent + rest, |sent + rest|)
  {
    assert (sent + rest)[..|sent|] == sent;
  }

  ghost predicate Accepts(host: PutHost, t: Target, data: Bytes, digest: Digest) {
    var plan := Plan(t, data, 0);
    AnsweredUpTo(host, plan, |plan|) && host(plan).receipt == Receipt(t.id, digest(data), |data|)
  }

  lemma PlanEnded(host: PutHost, t: Target, data: Bytes, digest: Digest, sent: seq<PutRequest>)
    requires sent == Plan(t, data, 0) && AnsweredUpTo(host, sent, |sent|)
    ensures Accepts(host, t, data, digest) <==> host(sent).receipt == Receipt(t.id, digest(data), |data|)
  {
  }

  lemma NotAccepted(host: PutHost, t: Target, data: Bytes, digest: Digest)
    requires !AnsweredUpTo(host, Plan(t, data, 0), |Plan(t, data, 0)|)
    ensures !Accepts(host, t, data, digest)
  {
  }

  /** Sending the request at off advances the plan; a refusal means that the upload cannot succeed. */
  lemma SendNext(host: PutHost, t: Target, data: Bytes, off: nat, sent: seq<PutRequest>)
    requires off <= |data| && AnsweredUpTo(host, sent, |sent|)
    requires sent + Plan(t, data, off) == Plan(t, data, 0)
    ensures var plan, next := Plan(t, data, 0), sent + [RequestAt(t, data, off)];
            && next <= plan && AnsweredUpTo(host, next, |next| - 1)
            && (host(next).Answered? ==> AnsweredUpTo(host, next, |next|))
            && (host(next).Rejected? ==> !AnsweredUpTo(host, plan, |plan|))
            && if off + CHUNK >= |data| then next == plan else next + Plan(t, data, off + CHUNK) == plan
  {
    hide AnsweredUpTo, Accepts, Plan, RequestAt;
    PlanStep(t, data, off);
    var q := RequestAt(t, data, off);
    var rest := if off + CHUNK >= |data| then [] else Plan(t, data, off + CHUNK);
    assert sent + Plan(t, data, off) == (sent + [q]) + rest;
    SendOne(host, sent, q);
    if host(sent + [q]).Rejected? {
      RefusedStays(host, sent + [q], rest);
    }
  }

  datatype PutResult = Stored(receipt: Receipt) | TooLarge | HostRefused(receipt: Receipt) | ReceiptMismatch

  /** Uploads data in chunks. It succeeds exactly when data is no larger than 256 MiB, the host answers every
      request of the plan, and the last answer is the receipt of exactly this data. */
  method PutResource(host: PutHost, t: Target, data: Bytes, digest: Digest)
    returns (r: PutResult, sent: seq<PutRequest>)
    ensures r.TooLarge? <==> |data| > MAX_RESOURCE
    ensures r.TooLarge? ==> sent == []
    ensures !r.TooLarge? ==> sent != [] && sent <= Plan(t, data, 0) && AnsweredUpTo(host, sent, |sent| - 1)
    ensures r.Stored? <==> |data| <= MAX_RESOURCE && Accepts(host, t, data, digest)
    ensures r.Stored? ==> sent == Plan(t, data, 0) && r.receipt == Receipt(t.id, digest(data), |data|)
    ensures r.HostRefused? ==> host(sent) == Rejected(r.receipt)
    ensures r.ReceiptMismatch? ==> sent == Plan(t, data, 0) && host(sent).Answered?
  {
    hide AnsweredUpTo, Accepts;
    sent := [];
    assert AnsweredUpTo(host, sent, 0) by { NothingAsked(host, sent); }
    if |data| > MAX_RESOURCE {
      return TooLarge, sent;
    }
    hide Plan;
    ghost var plan := Plan(t, data, 0);
    var off := 0;
    while true
      invariant 0 <= off <= |data|
      invariant sent + Plan(t, data, off) == plan
      invariant AnsweredUpTo(host, sent, |sent|)
      decreases |data| - off
    {
      var end := Min(off + CHUNK, |data|);
      SendNext(host, t, data, off, sent);
      sent := sent + [PutRequest(t, off, |data|, end == |data|, data[off..end])];
      var reply := host(sent);
      if reply.Rejected? {
        NotAccepted(host, t, data, digest);
        return HostRefused(reply.receipt), sent;
      }
      if end == |data| {
        PlanEnded(host, t, data, digest, sent);
        if reply.receipt.id != t.id || reply.receipt.size != |data| || reply.receipt.sha256 != digest(data) {
          return ReceiptMismatch, sent;
        }
        return Stored(reply.receipt), sent;
      }
      off := end;
    }
  }

  // ---------- the plan partitions the data ----------

  function Joined(plan: seq<PutRequest>): Bytes { if plan == [] then [] else plan[0].data + Joined(plan[1..]) }

  /** Every chunk but the last is 256 KiB, and the last is no larger. */
  ghost predicate Chunks(plan: seq<PutRequest>, t: Target, total: int) {
    forall i :: 0 <= i < |plan| ==>
      && plan[i].total == total && plan[i].target == t
      && if i < |plan| - 1 then |plan[i].data| == 256 * 1024 else |plan[i].data| <= 256 * 1024
  }

  ghost predicate LastCommits(plan: seq<PutRequest>) {
    forall i :: 0 <= i < |plan| ==> (plan[i].commit <==> i == |plan| - 1)
  }

  ghost predicate Contiguous(plan: seq<PutRequest>) {
    forall i :: 0 < i < |plan| ==> plan[i].offset == plan[i - 1].offset + |plan[i - 1].data|
  }

  lemma InnerRequest(t: Target, data: Bytes, off: nat)
    requires off + CHUNK < |data|
    ensures RequestAt(t, data, off) == PutRequest(t, off, |data|, false, data[off..off + CHUNK])
  {
  }

  lemma PartitionStep(t: Target, total: int, q: PutRequest, rest: seq<PutRequest>)
    requires rest != [] && Chunks(rest, t, total) && LastCommits(rest) && Contiguous(rest)
    requires |q.data| == CHUNK && q.total == total && q.target == t && !q.commit
    requires rest[0].offset == q.offset + |q.data|
    ensures var plan := [q] + rest;
            Chunks(plan, t, total) && LastCommits(plan) && Contiguous(plan) && Joined(plan) == q.data + Joined(rest)
  {
    var plan := [q] + rest;
    assert plan[1..] == rest;
    assert Chunks(plan, t, total) by {
      forall i | 0 < i < |plan| ensures plan[i] == rest[i - 1] {}
    }
    assert LastCommits(plan) by {
      forall i | 0 <= i < |plan| ensures plan[i].commit <==> i == |plan| - 1 {
        if i > 0 { assert plan[i] == rest[i - 1]; }
      }
    }
    assert Contiguous(plan) by {
      forall i | 0 < i < |plan| ensures plan[i].offset == plan[i - 1].offset + |plan[i - 1].data| {
        assert plan[i] == rest[i - 1];
        if i > 1 { assert plan[i - 1] == rest[i - 2]; }
      }
    }
  }

  /** The plan cuts the data into consecutive chunks: put together they are the data, each starts where the one before
      ended, all are full but the last, none is empty unless all the data is, and exactly the last commits. */
  lemma {:induction false} PlanPartitions(t: Target, data: Bytes, off: nat)
    requires off <= |data|
    ensures var plan := Plan(t, data, off);
            && plan != [] && plan[0].offset == off && Joined(plan) == data[off..]
            && Chunks(plan, t, |data|) && LastCommits(plan) && Contiguous(plan)
            && (plan[|plan| - 1].data == [] <==> off == |data|)
    decreases |data| - off
  {
    PlanStep(t, data, off);
    var q := RequestAt(t, data, off);
    if off + CHUNK < |data| {
      PlanPartitions(t, data, off + CHUNK);
      hide *;
      assert q == PutRequest(t, off, |data|, false, data[off..off + CHUNK]) by { InnerRequest(t, data, off); }
      PartitionStep(t, |data|, q, Plan(t, data, off + CHUNK));
      assert data[off..] == data[off..off + CHUNK] + data[off + CHUNK..];
    } else {
      assert data[off..|data|] == data[off..];
      assert [q][1..] == [];
    }
  }
}
