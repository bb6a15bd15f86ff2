/**
 The byte stream behind the write lock: the dispatcher and the workers of the capability server take the
 lock in any order, and each writes one frame in as many pieces as its writer likes.
 */
module OutputStream {
  import opened Basics
  import opened Frame

  /** The holder of the lock, its frame, and how much of it is on the stream. */
  datatype Lock = Free | Held(who: nat, payload: Bytes, done: nat)

  /** `log` lists the payloads whose frames are completely on the stream, in lock order. A write that ends
      in an error inside its frame leaves the stream `torn`; nobody stops the next writer. */
  datatype Output = Output(maxBytes: int, bytes: Bytes, lock: Lock, log: seq<Bytes>, torn: Bytes, spoiled: bool)

  function Start(maxBytes: int): Output { Output(maxBytes, [], Free, [], [], false) }

  datatype Event = Acquire(who: nat, payload: Bytes) | Piece(n: nat) | Finish | Fail

  predicate Enabled(o: Output, e: Event) {
    match e
    case Acquire(_, payload) => o.lock.Free? && Sendable(payload, o.maxBytes)
    case Piece(n) => o.lock.Held? && 0 < n && o.lock.done + n <= |FrameOf(o.lock.payload)|
    case Finish => o.lock.Held? && o.lock.done == |FrameOf(o.lock.payload)|
    case Fail => o.lock.Held? && o.lock.done <= |FrameOf(o.lock.payload)|
  }

  function Next(o: Output, e: Event): Output
    requires Enabled(o, e)
  {
    match e
    case Acquire(who, payload) => o.(lock := Held(who, payload, 0))
    case Piece(n) =>
      var d := o.lock.done;
      o.(bytes := o.bytes + FrameOf(o.lock.payload)[d..d + n], lock := o.lock.(done := d + n),
         spoiled := o.spoiled || o.torn != [])
    case Finish => o.(lock := Free, log := o.log + [o.lock.payload])
    case Fail =>
      var frame := FrameOf(o.lock.payload);
      if o.lock.done == |frame| then o.(lock := Free, log := o.log + [o.lock.payload])
      else if o.torn != [] then o.(lock := Free)
      else o.(lock := Free, torn := frame[..o.lock.done])
  }

  /** What is on the stream after the completed frames. */
  function Tail(o: Output): Bytes {
    if o.torn != [] then o.torn
    else if o.lock.Held? && o.lock.done <= |FrameOf(o.lock.payload)| then FrameOf(o.lock.payload)[..o.lock.done]
    else []
  }

  ghost predicate Whole(o: Output) {
    && (o.lock.Held? ==> o.lock.done <= |FrameOf(o.lock.payload)| && Sendable(o.lock.payload, o.maxBytes))
    && (forall i :: 0 <= i < |o.log| ==> Sendable(o.log[i], o.maxBytes))
    && (o.torn != [] ==>
          exists p: Bytes :: Sendable(p, o.maxBytes) && |o.torn| < |FrameOf(p)| && o.torn == FrameOf(p)[..|o.torn|])
    && (!o.spoiled ==>
          && o.bytes == Stream(o.log) + Tail(o)
          && (o.torn != [] && o.lock.Held? ==> o.lock.done == 0))
  }

  lemma {:induction false} StreamSnoc(ps: seq<Bytes>, p: Bytes)
    ensures Stream(ps + [p]) == Stream(ps) + FrameOf(p)
  {
    if ps == [] {
      assert [p][1..] == [];
    } else {
      assert (ps + [p])[1..] == ps[1..] + [p];
      StreamSnoc(ps[1..], p);
    }
  }

  lemma WholePiece(o: Output, n: nat)
    requires Whole(o) && Enabled(o, Piece(n))
    ensures Whole(Next(o, Piece(n)))
  {
    hide FrameOf, Stream;
    var f, d := FrameOf(o.lock.payload), o.lock.done;
    assert f[..d] + f[d..d + n] == f[..d + n];
    assert Stream(o.log) + f[..d] + f[d..d + n] == Stream(o.log) + (f[..d] + f[d..d + n]);
  }

  lemma WholeEnd(o: Output, e: Event)
    requires Whole(o) && Enabled(o, e) && (e.Finish? || e.Fail?)
    ensures Whole(Next(o, e))
  {
    var f, d := FrameOf(o.lock.payload), o.lock.done;
    assert |f| > 0;
    hide FrameOf, Stream;
    StreamSnoc(o.log, o.lock.payload);
    if d == |f| {
      assert f[..d] == f;
      assert Stream(o.log + [o.lock.payload]) + [] == Stream(o.log) + f;
    } else if o.torn == [] && d > 0 {
      assert f[..d] == f[..|f[..d]|];
    }
  }

  lemma WholeNext(o: Output, e: Event)
    requires Whole(o) && Enabled(o, e)
    ensures Whole(Next(o, e))
  {
    match e
    case Acquire(_, payload) => assert FrameOf(payload)[..0] == [];
    case Piece(n) => WholePiece(o, n);
    case Finish => WholeEnd(o, e);
    case Fail => WholeEnd(o, e);
  }

  datatype Run = Run(states: seq<Output>, events: seq<Event>)

  ghost predicate IsRun(r: Run) {
    && |r.states| == |r.events| + 1 && (exists maxBytes :: r.states[0] == Start(maxBytes))
    && forall i :: 0 <= i < |r.events| ==>
         Enabled(r.states[i], r.events[i]) && r.states[i + 1] == Next(r.states[i], r.events[i])
  }

  lemma {:induction false} RunWhole(r: Run, i: nat)
    requires IsRun(r) && i <= |r.events|
    ensures Whole(r.states[i])
  {
    hide Whole, Enabled, Next;
    if i == 0 {
      var maxBytes :| r.states[0] == Start(maxBytes);
      StartWhole(maxBytes);
    } else {
      RunWhole(r, i - 1);
      WholeNext(r.states[i - 1], r.events[i - 1]);
    }
  }

  lemma StartWhole(maxBytes: int)
    ensures Whole(Start(maxBytes))
  {
  }

  /** The payloads whose last byte is on the stream: the log, and the holder's frame once it is complete. */
  function Completed(o: Output): seq<Bytes> {
    if o.torn == [] && o.lock.Held? && o.lock.done == |FrameOf(o.lock.payload)| then o.log + [o.lock.payload] else o.log
  }

  /** The writer took bytes although a frame had been torn before. */
  predicate WritesAfterTear(r: Run, j: nat) {
    j < |r.events| && j < |r.states| && r.events[j].Piece? && r.states[j].torn != []
  }

  /** The stream is spoiled exactly when the writer took bytes after a torn frame. In particular a writer that
      accepts nothing after a partial failure never spoils it. */
  lemma {:induction false} SpoiledIff(r: Run, i: nat)
    requires IsRun(r) && i <= |r.events|
    ensures r.states[i].spoiled <==> exists j: nat :: j < i && WritesAfterTear(r, j)
  {
    if i > 0 {
      SpoiledIff(r, i - 1);
      assert Enabled(r.states[i - 1], r.events[i - 1]);
      hide FrameOf;
      assert r.states[i].spoiled <==> r.states[i - 1].spoiled || WritesAfterTear(r, i - 1);
    }
  }

  lemma WholeHolder(o: Output)
    requires Whole(o) && !o.spoiled && o.torn == [] && o.lock.Held?
    ensures var f, d := FrameOf(o.lock.payload), o.lock.done;
            o.bytes == if d == |f| then Stream(Completed(o)) else Stream(Completed(o)) + f[..d]
  {
    var f := FrameOf(o.lock.payload);
    hide FrameOf, Stream;
    StreamSnoc(o.log, o.lock.payload);
    assert f[..|f|] == f;
  }

  lemma WholeState(o: Output) returns (p: Bytes, n: nat)
    requires Whole(o) && !o.spoiled
    ensures Sendable(p, o.maxBytes) && n < |FrameOf(p)| && o.bytes == Stream(Completed(o)) + FrameOf(p)[..n]
    ensures n > 0 && o.torn == [] ==> o.lock.Held? && p == o.lock.payload
    ensures o.torn == [] && o.lock.Free? ==> n == 0
    ensures forall k :: 0 <= k < |Completed(o)| ==> Sendable(Completed(o)[k], o.maxBytes)
  {
    hide Stream;
    if o.torn != [] {
      p :| Sendable(p, o.maxBytes) && |o.torn| < |FrameOf(p)| && o.torn == FrameOf(p)[..|o.torn|];
      n := |o.torn|;
    } else {
      p, n := [0], 0;
      if o.lock.Held? {
        WholeHolder(o);
        if o.lock.done < |FrameOf(o.lock.payload)| {
          p, n := o.lock.payload, o.lock.done;
        }
      }
    }
  }

  /** For every interleaving and every way of cutting writes into pieces, in every state that is not spoiled: the
      stream is the completed frames in lock order and a proper prefix of at most one more. */
  lemma WholeFrames(r: Run, i: nat) returns (p: Bytes, n: nat)
    requires IsRun(r) && i <= |r.events| && !r.states[i].spoiled
    ensures Sendable(p, r.states[i].maxBytes) && n < |FrameOf(p)|
    ensures r.states[i].bytes == Stream(Completed(r.states[i])) + FrameOf(p)[..n]
    ensures n > 0 && r.states[i].torn == [] ==> r.states[i].lock.Held? && p == r.states[i].lock.payload
  {
    RunWhole(r, i);
    hide Whole, FrameOf, Stream, Completed;
    p, n := WholeState(r.states[i]);
  }

  lemma RecoveredState<V>(o: Output, decode: Decoder<V>)
    requires Whole(o) && !o.spoiled && Limit(o.maxBytes) < WORD
    requires forall k :: 0 <= k < |Completed(o)| ==> decode(Completed(o)[k]).Some?
    ensures ParseAll(o.bytes, o.maxBytes, decode).0 == Values(Completed(o), decode)
    ensures o.torn == [] && o.lock.Free? ==> ParseAll(o.bytes, o.maxBytes, decode).1 == []
  {
    var p, n := WholeState(o);
    hide Whole, FrameOf, Stream, Parse, Completed;
    StreamRecovered(Completed(o), p, n, o.maxBytes, decode);
  }

  /** And repeated `ReadFrame` on the other end recovers exactly the responses completed so far, in lock order. */
  lemma OutputRecovered<V>(r: Run, i: nat, decode: Decoder<V>)
    requires IsRun(r) && i <= |r.events| && !r.states[i].spoiled && Limit(r.states[i].maxBytes) < WORD
    requires forall k :: 0 <= k < |Completed(r.states[i])| ==> decode(Completed(r.states[i])[k]).Some?
    ensures ParseAll(r.states[i].bytes, r.states[i].maxBytes, decode).0 == Values(Completed(r.states[i]), decode)
  {
    RunWhole(r, i);
    hide Whole, ParseAll, Completed;
    RecoveredState(r.states[i], decode);
  }

  function Raw(payload: Bytes): Option<Bytes> { Some(payload) }

  const TORN := Output(0, [0, 0, 0, 2, 1, 0, 0, 0, 1, 7], Free, [[7]], [0, 0, 0, 2, 1], true)

  lemma TornRun() returns (r: Run)
    ensures IsRun(r) && r.states[|r.events|] == TORN
  {
    hide Parse, ParseAll, Stream;
    assert FrameOf([1, 1]) == [0, 0, 0, 2, 1, 1];
    assert FrameOf([7]) == [0, 0, 0, 1, 7];
    hide Header, FrameOf;
    var s1 := Start(0).(lock := Held(1, [1, 1], 0));
    var s2 := s1.(lock := Held(1, [1, 1], 5), bytes := [0, 0, 0, 2, 1]);
    var s3 := s2.(lock := Free, torn := [0, 0, 0, 2, 1]);
    var s4 := s3.(lock := Held(0, [7], 0));
    var s5 := TORN.(lock := Held(0, [7], 5), log := []);
    r := Run([Start(0), s1, s2, s3, s4, s5, TORN],
             [Acquire(1, [1, 1]), Piece(5), Fail, Acquire(0, [7]), Piece(5), Finish]);
    assert [0, 0, 0, 2, 1] + [0, 0, 0, 1, 7] == TORN.bytes;
  }

  /** Writing on after a torn frame is not prevented, and then the reader is misled: here a worker's write fails
      inside its frame, the next response is written whole, and the reader gets a value nobody sent. */
  lemma TornFrameMisleads()
    ensures exists r :: IsRun(r) && r.states[|r.events|] == TORN
    ensures ParseAll(TORN.bytes, TORN.maxBytes, Raw).0 == [[1, 0]] && TORN.log == [[7]]
  {
    var r := TornRun();
    hide IsRun;
    var bytes := TORN.bytes;
    assert bytes[4..6] == [1, 0];
    assert SizeOf(bytes) == 2 && Limit(0) == DEFAULT_MAX;
    assert Parse(bytes, 0, Raw) == Got([1, 0], 6);
    assert bytes[6..] == [0, 0, 1, 7];
    assert Parse(bytes[6..], 0, Raw).Failed?;
  }
}
