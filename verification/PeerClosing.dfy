/**
 What closes a peer, and what a closed one still does, over the events of any run: the exact causes, the order of
 the stages, an end to traffic once the stream is closed, and room in the queue.
 */
module PeerClosing {
  import opened Envelope
  import opened PeerModel
  import opened PeerRuns
  import opened PeerHistory

  // ---------- what closes a peer ----------

  /** Step e closes a peer that is open: `Close` itself, a stream that fails, a message that violates the protocol, a
      second reply to one call, a cancel or a reply that could not be queued, or a cancel nobody acknowledged. */
  ghost predicate Closes(p: PeerState, e: Event) {
    match e
    case Wiring(Close) => true
    case Wiring(ReadFails) => true
    case Wiring(WriteFails(_)) => true
    case Wiring(Dispatch) => p.reader.Holding? && Violates(p, p.reader.held)
    case Wiring(Deliver) =>
      p.reader.Delivering? && p.reader.call < |p.calls.tickets| && p.calls.tickets[p.reader.call].slot.Some?
    case Calling(_, c) => c.CancelFails? || c.SettleTimeout?
    case Working(_, w) => w.ReplyFails?
    case _ => false
  }

  function Rank(s: Stage): nat {
    match s case Open => 0 case DoneClosed => 1 case StreamClosed => 2 case Swept => 3
  }

  /** The stage after a step: closed by what closes it, then on through the stream to the sweep, one at a time. */
  ghost predicate StageTold(p: PeerState, e: Event, q: PeerState) {
    && (q.stage != Open <==> p.stage != Open || Closes(p, e))
    && (p.stage != Open && e != Wiring(CloseStream) && e != Wiring(Sweep) ==> q.stage == p.stage)
    && (p.stage == Open ==> q.stage == Open || q.stage == DoneClosed)
    && (e == Wiring(CloseStream) ==> p.stage == DoneClosed && q.stage == StreamClosed)
    && (e == Wiring(Sweep) ==> p.stage == StreamClosed && q.stage == Swept)
  }

  lemma CallStage(p: PeerState, k: nat, c: CallEvent)
    requires Shaped(p) && CallEnabled(p, k, c)
    ensures StageTold(p, Calling(k, c), CallNext(p, k, c))
  {
    hide CancelMessage, Shaped;
  }

  lemma WireStage(p: PeerState, w: WireEvent)
    requires Shaped(p) && WireEnabled(p, w)
    ensures StageTold(p, Wiring(w), WireNext(p, w))
  {
    if w.Dispatch? {
      DispatchDecides(p, p.reader.held);
      hide Dispatched, Violates;
    }
  }

  lemma StageStep(p: PeerState, e: Event, q: PeerState)
    requires Follows(p, e, q)
    ensures StageTold(p, e, q)
  {
    hide CallNext, CallEnabled, WireNext, WireEnabled, CallId, RequestMessage, ResponseMessage;
    match e
    case Issue(_, _, _) =>
    case Calling(k, c) => CallStage(p, k, c);
    case Working(h, w) =>
    case Wiring(w) => WireStage(p, w);
  }

  ghost predicate ClosesIn(r: PeerRun, j: nat) {
    j < |r.events| && j < |r.states| && Closes(r.states[j], r.events[j])
  }

  /** In every run a peer is closed exactly if an earlier step was one that closes it. */
  lemma {:induction false} ClosedIff(r: PeerRun, i: nat)
    requires IsRun(r) && i <= |r.events|
    ensures r.states[i].stage != Open <==> exists j: nat :: j < i && ClosesIn(r, j)
  {
    hide Follows, Closes;
    if i > 0 {
      assert Follows(r.states[i - 1], r.events[i - 1], r.states[i]);
      StageStep(r.states[i - 1], r.events[i - 1], r.states[i]);
      ClosedIff(r, i - 1);
      assert ClosesIn(r, i - 1) <==> Closes(r.states[i - 1], r.events[i - 1]);
    }
  }

  /** In every run the stages only advance. */
  lemma {:induction false} StagesAdvance(r: PeerRun, i: nat, j: nat)
    requires IsRun(r) && i <= j <= |r.events|
    ensures Rank(r.states[i].stage) <= Rank(r.states[j].stage)
  {
    hide Follows, Closes;
    if i < j {
      StagesAdvance(r, i, j - 1);
      assert Follows(r.states[j - 1], r.events[j - 1], r.states[j]);
      StageStep(r.states[j - 1], r.events[j - 1], r.states[j]);
    }
  }

  predicate Traffic(e: Event) {
    e.Wiring? && (e.e.Receive? || e.e.Write? || (e.e.WriteFails? && e.e.delivered))
  }

  /** Once the stream has been closed nothing is read from it or written to it. */
  lemma NoTrafficAfter(r: PeerRun, i: nat, j: nat)
    requires IsRun(r) && i < j < |r.events| && r.events[i] == Wiring(CloseStream)
    ensures !Traffic(r.events[j])
  {
    assert Follows(r.states[i], r.events[i], r.states[i + 1]);
    StagesAdvance(r, i + 1, j);
    assert Follows(r.states[j], r.events[j], r.states[j + 1]);
    hide Next;
  }

  /** In every run whoever was inside `Close`, a call or a handler, comes out of it only after the sweep. */
  lemma CloseReturnsAfterSweep(r: PeerRun, i: nat)
    requires IsRun(r) && i < |r.events|
    requires (r.events[i].Calling? && r.events[i].c.CloseReturns?) || (r.events[i].Working? && r.events[i].w.CloseOver?)
    ensures exists j: nat :: j < i && r.events[j] == Wiring(Sweep)
  {
    assert Follows(r.states[i], r.events[i], r.states[i + 1]);
    hide Next;
    SweptBy(r, i);
  }

  lemma {:induction false} SweptBy(r: PeerRun, i: nat)
    requires IsRun(r) && i <= |r.events| && r.states[i].stage == Swept
    ensures exists j: nat :: j < i && r.events[j] == Wiring(Sweep)
  {
    hide Follows, Closes;
    if i > 0 {
      assert Follows(r.states[i - 1], r.events[i - 1], r.states[i]);
      StageStep(r.states[i - 1], r.events[i - 1], r.states[i]);
      if r.states[i - 1].stage == Swept {
        SweptBy(r, i - 1);
      }
    }
  }

  // ---------- what stops reader and writer ----------

  /** Step e ends the reader: a failed read, a violating message, or a second reply to one call. */
  ghost predicate EndsReader(p: PeerState, e: Event) {
    || e == Wiring(ReadFails)
    || ((e == Wiring(Dispatch) || e == Wiring(Deliver)) && Closes(p, e))
  }

  /** Step e ends the writer: a failed write, or a look at `done` that finds it closed. */
  predicate EndsWriter(e: Event) { e.Wiring? && (e.e.Quit? || e.e.WriteFails?) }

  lemma EndsStep(p: PeerState, e: Event, q: PeerState)
    requires Follows(p, e, q)
    ensures q.reader.ReaderDone? <==> p.reader.ReaderDone? || EndsReader(p, e)
    ensures q.writer.WriterDone? <==> p.writer.WriterDone? || EndsWriter(e)
  {
    hide CallId, RequestMessage, ResponseMessage, WellFormed, CancelMessage;
    if e == Wiring(Dispatch) {
      DispatchDecides(p, p.reader.held);
      hide Dispatched, Violates;
    }
    if e.Calling? {
      assert q.reader == p.reader && q.writer == p.writer;
    }
  }

  ghost predicate EndsReaderIn(r: PeerRun, j: nat) {
    j < |r.events| && j < |r.states| && EndsReader(r.states[j], r.events[j])
  }

  /** In every run the reader, and the writer, has stopped exactly if an earlier step was one that stops it. */
  lemma {:induction false} StoppedIff(r: PeerRun, i: nat)
    requires IsRun(r) && i <= |r.events|
    ensures r.states[i].reader.ReaderDone? <==> exists j: nat :: j < i && EndsReaderIn(r, j)
    ensures r.states[i].writer.WriterDone? <==> exists j: nat :: j < i && EndsWriter(r.events[j])
  {
    hide Follows, EndsReader, EndsWriter;
    if i > 0 {
      assert Follows(r.states[i - 1], r.events[i - 1], r.states[i]);
      EndsStep(r.states[i - 1], r.events[i - 1], r.states[i]);
      StoppedIff(r, i - 1);
      assert EndsReaderIn(r, i - 1) <==> EndsReader(r.states[i - 1], r.events[i - 1]);
    }
  }

  // ---------- the queue ----------

  lemma QueueStep(p: PeerState, e: Event, q: PeerState)
    requires Follows(p, e, q) && |p.out| <= 32
    ensures |q.out| <= 32
  {
    hide CallId, RequestMessage, ResponseMessage, WellFormed, CancelMessage;
    if e.Calling? {
      hide Calls.Enter, Calls.TakeReply;
    }
  }

  /** In every run at most 32 messages wait for the writer. */
  lemma {:induction false} QueueBound(r: PeerRun, i: nat)
    requires IsRun(r) && i <= |r.events|
    ensures |r.states[i].out| <= 32
  {
    hide Follows;
    if i > 0 {
      QueueBound(r, i - 1);
      assert Follows(r.states[i - 1], r.events[i - 1], r.states[i]);
      QueueStep(r.states[i - 1], r.events[i - 1], r.states[i]);
    }
  }
}
