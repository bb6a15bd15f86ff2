/**
 The capability server together with its output stream: who takes the write lock, how its frame gets onto the
 stream, and which step of the server that completes. `Who` 0 is the dispatcher, w + 1 the w-th worker.
 */
module CapabilityOutput {
  import opened Basics
  import opened Frame
  import M = CapabilityModel
  import C = CapabilityRuns
  import O = OutputStream

  datatype System = System(server: M.Server, output: O.Output)

  /** The marshalled response, or nothing when it cannot be marshalled. */
  type Encoder = M.Response -> Option<Bytes>

  /** The response that a goroutine is about to write. */
  function Pending(s: M.Server, who: nat): Option<M.Response> {
    if who == 0 then
      if s.dispatcher.Answering? then Some(s.dispatcher.response) else None
    else if who <= |s.workers| && s.workers[who - 1].phase.Responding? then
      Some(M.Response(s.workers[who - 1].id, M.ExecuteBody(s.workers[who - 1].phase.ok)))
    else None
  }

  /** The step of the server in which `respond` returns. */
  function Responded(who: nat, written: bool): M.Event {
    if who == 0 then M.Looping(M.Answer(written)) else M.Working(who - 1, M.Respond(written))
  }

  predicate IsRespond(e: M.Event) { (e.Looping? && e.l.Answer?) || (e.Working? && e.e.Respond?) }

  datatype Event =
    | Other(e: M.Event)       // any step of the server but a write
    | Refuse(who: nat)        // the response does not encode, or is empty or too large: nothing is written
    | Lock(who: nat) | Piece(n: nat)
    | Complete | Break        // the holder's frame is written in full, or a write fails

  predicate Enabled(s: System, e: Event, encode: Encoder) {
    match e
    case Other(m) => M.Enabled(s.server, m) && !IsRespond(m)
    case Refuse(who) =>
      && Pending(s.server, who).Some?
      && var b := encode(Pending(s.server, who).value); b.None? || !Sendable(b.value, s.output.maxBytes)
    case Lock(who) =>
      && Pending(s.server, who).Some? && encode(Pending(s.server, who).value).Some?
      && O.Enabled(s.output, O.Acquire(who, encode(Pending(s.server, who).value).value))
    case Piece(n) => O.Enabled(s.output, O.Piece(n))
    case Complete => O.Enabled(s.output, O.Finish) && Pending(s.server, s.output.lock.who).Some?
    case Break => O.Enabled(s.output, O.Fail) && Pending(s.server, s.output.lock.who).Some?
  }

  lemma PendingEnables(s: M.Server, who: nat, written: bool)
    requires Pending(s, who).Some?
    ensures M.Enabled(s, Responded(who, written))
  {
  }

  function Next(s: System, e: Event, encode: Encoder): System
    requires Enabled(s, e, encode)
  {
    match e
    case Other(m) => s.(server := M.Next(s.server, m))
    case Refuse(who) => PendingEnables(s.server, who, false); s.(server := M.Next(s.server, Responded(who, false)))
    case Lock(who) => s.(output := O.Next(s.output, O.Acquire(who, encode(Pending(s.server, who).value).value)))
    case Piece(n) => s.(output := O.Next(s.output, O.Piece(n)))
    case Complete =>
      var who := s.output.lock.who;
      PendingEnables(s.server, who, true);
      System(M.Next(s.server, Responded(who, true)), O.Next(s.output, O.Finish))
    case Break =>
      var who := s.output.lock.who;
      PendingEnables(s.server, who, false);
      System(M.Next(s.server, Responded(who, false)), O.Next(s.output, O.Fail))
  }

  // ---------- the invariant ----------

  /** b is what this response is on the wire. */
  predicate Encodes(encode: Encoder, r: M.Response, b: Bytes) { encode(r) == Some(b) }

  ghost predicate LogIsOut(log: seq<Bytes>, out: seq<M.Response>, encode: Encoder) {
    |log| == |out| && forall i :: 0 <= i < |out| ==> Encodes(encode, out[i], log[i])
  }

  ghost predicate HolderPending(s: System, encode: Encoder) {
    s.output.lock.Held? ==>
      Pending(s.server, s.output.lock.who).Some?
      && Encodes(encode, Pending(s.server, s.output.lock.who).value, s.output.lock.payload)
  }

  ghost predicate NothingLost(s: System, encode: Encoder) {
    s.server.lost == 0 ==> s.output.torn == [] && !s.output.spoiled && LogIsOut(s.output.log, s.server.out, encode)
  }

  ghost predicate Inv(s: System, encode: Encoder) {
    C.Reachable(s.server) && O.Whole(s.output) && HolderPending(s, encode) && NothingLost(s, encode)
  }

  /** Whoever is about to write stays so, and nothing is written or lost, until its `respond` returns. */
  lemma OtherKeeps(s: M.Server, e: M.Event, who: nat)
    requires M.Enabled(s, e) && !IsRespond(e)
    ensures Pending(s, who).Some? ==> Pending(M.Next(s, e), who) == Pending(s, who)
    ensures M.Next(s, e).out == s.out && M.Next(s, e).lost == s.lost
  {
    hide M.WellFormed, M.Routed;
    match e
    case Looping(l) =>
    case Working(w, x) =>
  }

  lemma RespondedKeeps(s: M.Server, who: nat, written: bool, other: nat)
    requires Pending(s, who).Some? && M.Enabled(s, Responded(who, written))
    ensures var t := M.Next(s, Responded(who, written));
            && (other != who && Pending(s, other).Some? ==> Pending(t, other) == Pending(s, other))
            && t.out == (if written then s.out + [Pending(s, who).value] else s.out)
            && t.lost == (if written then s.lost else s.lost + 1)
  {
  }

  lemma LogSnoc(log: seq<Bytes>, out: seq<M.Response>, encode: Encoder, r: M.Response, b: Bytes)
    requires LogIsOut(log, out, encode) && Encodes(encode, r, b)
    ensures LogIsOut(log + [b], out + [r], encode)
  {
  }

  lemma InvOther(s: System, m: M.Event, encode: Encoder)
    requires Inv(s, encode) && M.Enabled(s.server, m) && !IsRespond(m)
    ensures Inv(s.(server := M.Next(s.server, m)), encode)
  {
    hide C.Reachable, O.Whole, M.Next, M.Enabled, Pending, IsRespond;
    C.ReachNext(s.server, m);
    OtherKeeps(s.server, m, if s.output.lock.Held? then s.output.lock.who else 0);
  }

  lemma InvRefuse(s: System, who: nat, encode: Encoder)
    requires Inv(s, encode) && Enabled(s, Refuse(who), encode)
    ensures Inv(Next(s, Refuse(who), encode), encode)
  {
    assert s.output.lock.Held? ==> s.output.lock.who != who by { hide C.Reachable; }
    hide C.Reachable, O.Whole, M.Next, M.Enabled, Pending;
    PendingEnables(s.server, who, false);
    C.ReachNext(s.server, Responded(who, false));
    RespondedKeeps(s.server, who, false, if s.output.lock.Held? then s.output.lock.who else who);
  }

  lemma InvOutput(s: System, e: Event, encode: Encoder)
    requires Inv(s, encode) && Enabled(s, e, encode) && (e.Lock? || e.Piece?)
    ensures Inv(Next(s, e, encode), encode)
  {
    hide C.Reachable, O.Whole, M.Next, M.Enabled, Pending;
    O.WholeNext(s.output,
                 if e.Lock? then O.Acquire(e.who, encode(Pending(s.server, e.who).value).value) else O.Piece(e.n));
  }

  lemma InvEnd(s: System, e: Event, encode: Encoder)
    requires Inv(s, encode) && Enabled(s, e, encode) && (e.Complete? || e.Break?)
    ensures Inv(Next(s, e, encode), encode)
  {
    hide C.Reachable, O.Whole, M.Next, M.Enabled, Pending, LogIsOut;
    var who := s.output.lock.who;
    O.WholeNext(s.output, if e.Complete? then O.Finish else O.Fail);
    PendingEnables(s.server, who, e.Complete?);
    C.ReachNext(s.server, Responded(who, e.Complete?));
    RespondedKeeps(s.server, who, e.Complete?, who);
    if e.Complete? && s.server.lost == 0 {
      LogSnoc(s.output.log, s.server.out, encode, Pending(s.server, who).value, s.output.lock.payload);
    }
  }

  lemma InvNext(s: System, e: Event, encode: Encoder)
    requires Inv(s, encode) && Enabled(s, e, encode)
    ensures Inv(Next(s, e, encode), encode)
  {
    match e
    case Other(m) => InvOther(s, m, encode);
    case Refuse(who) => InvRefuse(s, who, encode);
    case Lock(_) => InvOutput(s, e, encode);
    case Piece(_) => InvOutput(s, e, encode);
    case Complete => InvEnd(s, e, encode);
    case Break => InvEnd(s, e, encode);
  }

  // ---------- runs ----------

  datatype Run = Run(states: seq<System>, events: seq<Event>)

  ghost predicate IsRun(r: Run, maxBytes: int, encode: Encoder) {
    && |r.states| == |r.events| + 1 && r.states[0] == System(M.FRESH, O.Start(maxBytes))
    && forall i :: 0 <= i < |r.events| ==>
         Enabled(r.states[i], r.events[i], encode) && r.states[i + 1] == Next(r.states[i], r.events[i], encode)
  }

  lemma StartInv(maxBytes: int, encode: Encoder)
    ensures Inv(System(M.FRESH, O.Start(maxBytes)), encode)
  {
    O.StartWhole(maxBytes);
    var r := C.Run([M.FRESH], []);
    assert C.IsRun(r) && r.states[|r.events|] == M.FRESH;
  }

  lemma {:induction false} RunInv(r: Run, i: nat, maxBytes: int, encode: Encoder)
    requires IsRun(r, maxBytes, encode) && i <= |r.events|
    ensures Inv(r.states[i], encode) && r.states[i].output.maxBytes == maxBytes
  {
    hide Inv, M.Next, M.Enabled;
    if i == 0 {
      StartInv(maxBytes, encode);
    } else {
      RunInv(r, i - 1, maxBytes, encode);
      InvNext(r.states[i - 1], r.events[i - 1], encode);
    }
  }

  /** The reader decodes what the server encodes. */
  ghost predicate Decodes(encode: Encoder, decode: Decoder<M.Response>) {
    forall r: M.Response :: encode(r).Some? ==> decode(encode(r).value) == Some(r)
  }

  /** The responses whose frames are complete: those whose `respond` returned, and the lock holder's if its last
      byte is out. */
  function Delivered(s: System): seq<M.Response> {
    var o := s.output;
    if o.torn == [] && o.lock.Held? && o.lock.done == |FrameOf(o.lock.payload)| && Pending(s.server, o.lock.who).Some?
    then s.server.out + [Pending(s.server, o.lock.who).value] else s.server.out
  }

  lemma {:induction false} ValuesAre(log: seq<Bytes>, rs: seq<M.Response>, encode: Encoder, decode: Decoder<M.Response>)
    requires LogIsOut(log, rs, encode) && Decodes(encode, decode)
    ensures forall i :: 0 <= i < |log| ==> decode(log[i]).Some?
    ensures Values(log, decode) == rs
  {
    forall i | 0 <= i < |log| ensures decode(log[i]) == Some(rs[i]) { assert Encodes(encode, rs[i], log[i]); }
    if log != [] {
      ValuesAre(log[1..], rs[1..], encode, decode);
      assert rs == [rs[0]] + rs[1..];
    }
  }

  /** Whatever the interleaving and however writes are cut into pieces: reading the output back gives exactly the
      server's responses, in the order of its log - if none was lost. */
  lemma OutputIsResponses(r: Run, i: nat, maxBytes: int, encode: Encoder, decode: Decoder<M.Response>)
    requires IsRun(r, maxBytes, encode) && i <= |r.events| && r.states[i].server.lost == 0
    requires Limit(maxBytes) < WORD && Decodes(encode, decode)
    ensures ParseAll(r.states[i].output.bytes, maxBytes, decode).0 == Delivered(r.states[i])
    ensures r.states[i].output.lock.Free? ==>
              ParseAll(r.states[i].output.bytes, maxBytes, decode) == (r.states[i].server.out, [])
  {
    RunInv(r, i, maxBytes, encode);
    var s := r.states[i];
    hide IsRun, C.Reachable, O.Whole, ParseAll, Decodes, LogIsOut, Pending, Values;
    if s.output.lock.Held? {
      LogSnoc(s.output.log, s.server.out, encode, Pending(s.server, s.output.lock.who).value, s.output.lock.payload);
    }
    ValuesAre(O.Completed(s.output), Delivered(s), encode, decode);
    O.RecoveredState(s.output, decode);
  }

  /** After a draining shutdown that lost nothing, the bytes on the stream are exactly the responses, and the
      shutdown response is the last frame. */
  lemma ShutdownIsLastFrame(r: Run, i: nat, id: string, maxBytes: int, encode: Encoder, decode: Decoder<M.Response>)
    requires IsRun(r, maxBytes, encode) && i <= |r.events| && r.states[i].server.lost == 0
    requires Limit(maxBytes) < WORD && Decodes(encode, decode)
    requires r.states[i].server.dispatcher.Ended? && id in r.states[i].server.shutdown
    ensures var (responses, rest) := ParseAll(r.states[i].output.bytes, maxBytes, decode);
            && rest == [] && responses == r.states[i].server.out
            && responses != [] && responses[|responses| - 1].id == id && responses[|responses| - 1].body.ShutdownBody?
  {
    RunInv(r, i, maxBytes, encode);
    var s := r.states[i];
    hide IsRun, C.Reachable, O.Whole, ParseAll, Decodes, LogIsOut;
    C.DrainingShutdown(s.server, id);
    if s.output.lock.Held? {
      NobodyWrites(s.server, s.output.lock.who);
    }
    OutputIsResponses(r, i, maxBytes, encode, decode);
  }

  lemma NobodyWrites(s: M.Server, who: nat)
    requires C.Reachable(s) && s.dispatcher.Ended?
    ensures Pending(s, who).None?
  {
    C.ConcurrencyBound(s);
  }
}
