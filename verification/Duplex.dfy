/**
 Two peers joined by a FIFO link in each direction. A run interleaves their steps in any order; the
 invariant says that each direction is an exactly-once exchange.
 */
module Duplex {
  import opened Basics
  import opened Envelope
  import opened PeerModel
  import opened PeerInvariants
  import X = Exchange

  /** What the reader took off the link and has not finished dispatching. */
  function Hand(r: Reader): seq<Message> {
    match r
    case Holding(m) => [m]
    case Delivering(_, m) => [m]
    case _ => []
  }

  /** What the writer will still put on the link, in order. */
  function Backlog(p: PeerState): seq<Message> {
    match p.writer
    case Polling => p.out
    case Writing(m) => [m] + p.out
    case WriterDone => []
  }

  /** Everything between x's queue and y's dispatch that can still arrive. */
  function Flow(x: PeerState, link: seq<Message>, y: PeerState): seq<Message> {
    if y.reader.ReaderDone? then [] else Hand(y.reader) + link + Backlog(x)
  }

  predicate Cut(x: PeerState, y: PeerState) { y.reader.ReaderDone? || x.writer.WriterDone? }

  /** The exchange in which x calls and y answers; xy is the link from x to y. */
  function View(x: PeerState, y: PeerState, xy: seq<Message>, yx: seq<Message>): X.Exchange {
    X.Exchange(x.calls.tickets, x.calls.issued, y.handlers.jobs, y.handlers.admitted,
               Flow(x, xy, y), Flow(y, yx, x), Cut(x, y))
  }

  /** x may take step e: what its reader receives is the head of its incoming link. */
  ghost predicate CanStep(x: PeerState, yx: seq<Message>, e: Event) {
    && Shaped(x) && Enabled(x, e)
    && (e.Wiring? && e.e.Receive? ==> yx != [] && yx[0] == e.e.m)
  }

  function LinkOut(x: PeerState, xy: seq<Message>, e: Event): seq<Message> {
    if e.Wiring? && x.writer.Writing? && (e.e.Write? || (e.e.WriteFails? && e.e.delivered))
    then xy + [x.writer.frame] else xy
  }

  function LinkIn(yx: seq<Message>, e: Event): seq<Message> {
    if e.Wiring? && e.e.Receive? && yx != [] then yx[1..] else yx
  }

  // ---------- how a step changes the traffic ----------

  lemma OutGrows(x: PeerState, x': PeerState, xy: seq<Message>, y: PeerState, m: Message)
    requires x'.writer == x.writer && x'.out == x.out + [m]
    ensures Flow(x', xy, y) == if Cut(x, y) then Flow(x, xy, y) else Flow(x, xy, y) + [m]
  {
    assert x.writer.Writing? ==> [x.writer.frame] + (x.out + [m]) == [x.writer.frame] + x.out + [m];
    assert !Cut(x, y) ==> Backlog(x') == Backlog(x) + [m];
    assert !Cut(x, y) ==> Flow(x', xy, y) == Flow(x, xy, y) + [m];
  }

  lemma WriterMoves(x: PeerState, xy: seq<Message>, y: PeerState, e: WireEvent)
    requires Shaped(x) && WireEnabled(x, e)
    ensures e.Fetch? || e.Write? ==> Flow(WireNext(x, e), LinkOut(x, xy, Wiring(e)), y) == Flow(x, xy, y)
    ensures e.Quit? || e.WriteFails? ==> Flow(WireNext(x, e), LinkOut(x, xy, Wiring(e)), y) <= Flow(x, xy, y)
  {
    var x' := WireNext(x, e);
    var xy' := LinkOut(x, xy, Wiring(e));
    if e.Fetch? {
      assert [x.out[0]] + x.out[1..] == x.out;
    } else if e.Write? {
      var m := x.writer.frame;
      assert xy + [m] + x.out == xy + ([m] + x.out);
      assert Hand(y.reader) + (xy + [m]) + x.out == Hand(y.reader) + xy + ([m] + x.out);
    } else if e.WriteFails? {
      var m := x.writer.frame;
      assert Hand(y.reader) + (xy + [m]) + [] <= Hand(y.reader) + xy + ([m] + x.out);
    }
  }

  lemma ReaderReceives(x: PeerState, yx: seq<Message>, y: PeerState, m: Message)
    requires Shaped(x) && WireEnabled(x, Receive(m)) && yx != [] && yx[0] == m
    ensures Flow(y, yx[1..], WireNext(x, Receive(m))) == Flow(y, yx, x)
  {
    assert [m] + yx[1..] == yx;
  }

  /** Dispatching: the head of the incoming traffic is consumed, kept in hand, or all of it is lost. */
  lemma ReaderConsumes(x: PeerState, x': PeerState, yx: seq<Message>, y: PeerState)
    requires Hand(x.reader) != []
    ensures Flow(y, yx, x) != [] && Flow(y, yx, x)[0] == Hand(x.reader)[0]
    ensures !x'.reader.ReaderDone? && Hand(x'.reader) == [] ==> Flow(y, yx, x') == Flow(y, yx, x)[1..]
    ensures Hand(x'.reader) == Hand(x.reader) ==> Flow(y, yx, x') == Flow(y, yx, x)
    ensures x'.reader.ReaderDone? ==> Flow(y, yx, x') == []
  {
  }

  // ---------- each kind of step ----------

  lemma TicketsAreRequests(cs: Calls, prefix: string)
    requires Numbering(cs, prefix)
    ensures forall k :: 0 <= k < |cs.tickets| ==> IsRequest(cs.tickets[k].request)
  {
  }

  lemma CallStep(x: PeerState, y: PeerState, xy: seq<Message>, yx: seq<Message>, k: nat, c: CallEvent)
    requires Shaped(x) && CallInv(x) && CallEnabled(x, k, c)
    requires X.Inv(View(x, y, xy, yx)) && X.Inv(View(y, x, yx, xy))
    ensures var x' := CallNext(x, k, c);
            X.Inv(View(x', y, xy, yx)) && X.Inv(View(y, x', yx, xy))
  {
    hide X.Inv, Numbering, PendingExact;
    var x' := CallNext(x, k, c);
    var v, w := View(x, y, xy, yx), View(y, x, yx, xy);
    var t := x.calls.tickets[k];
    TicketsAreRequests(x.calls, x.prefix);
    if c.Send? || c.SendCancel? {
      var m := if c.Send? then t.request else CancelMessage(x.instance, t.request.id);
      OutGrows(x, x', xy, y, m);
      assert t.sent == c.SendCancel?;
      assert !m.reply;
      if !Cut(x, y) {
        X.BackwardOther(w, m);
      }
      if c.Send? {
        X.SendRequest(v, k);
      } else if !Cut(x, y) {
        X.SendCancel(v, k, m);
      }
    } else if c.Take? || c.TakeAck? {
      X.TakeReply(v, k);
    }
  }

  lemma IssueStep(x: PeerState, y: PeerState, xy: seq<Message>, yx: seq<Message>, e: Event)
    requires Shaped(x) && CallInv(x) && e.Issue? && e.raw != "" && |x.calls.tickets| < WRAP
    requires X.Inv(View(x, y, xy, yx)) && X.Inv(View(y, x, yx, xy))
    ensures var x' := Next(x, e);
            X.Inv(View(x', y, xy, yx)) && X.Inv(View(y, x', yx, xy))
  {
    hide X.Inv, Numbering, PendingExact, Progress, Settled, CallId;
    var id := CallId(x.prefix, SerialOf(|x.calls.tickets|));
    NumberingDraw(x.calls, x.instance, x.prefix, e.verb, e.deadline, e.raw);
    SerialNext(x.calls, x.prefix);
    X.Begin(View(x, y, xy, yx), Ticket(RequestMessage(x.instance, id, e.verb, e.deadline, e.raw), false, None, None));
  }

  lemma WorkStep(x: PeerState, y: PeerState, xy: seq<Message>, yx: seq<Message>, h: nat, e: WorkEvent)
    requires Shaped(x) && Responses(x.handlers) && WorkEnabled(x, h, e)
    requires X.Inv(View(x, y, xy, yx)) && X.Inv(View(y, x, yx, xy))
    ensures var x' := WorkNext(x, h, e);
            X.Inv(View(x', y, xy, yx)) && X.Inv(View(y, x', yx, xy))
  {
    hide X.Inv;
    var x' := WorkNext(x, h, e);
    var v, w := View(x, y, xy, yx), View(y, x, yx, xy);
    var j := x.handlers.jobs[h];
    if e.Finish? {
      X.Respond(w, h, ResponseMessage(x.instance, j.request.id, e.outcome));
    } else if e.Reply? {
      var m := j.response.value;
      OutGrows(x, x', xy, y, m);
      X.Queue(w, h);
      if !Cut(x, y) {
        X.ForwardReply(v, m);
      }
    }
  }

  lemma DispatchStep(x: PeerState, y: PeerState, xy: seq<Message>, yx: seq<Message>)
    requires Shaped(x) && x.reader.Holding?
    requires X.Inv(View(x, y, xy, yx)) && X.Inv(View(y, x, yx, xy))
    ensures var x' := Dispatched(x, x.reader.held);
            X.Inv(View(x', y, xy, yx)) && X.Inv(View(y, x', yx, xy))
  {
    hide X.Inv;
    var m := x.reader.held;
    var x' := Dispatched(x, m);
    var v, w := View(x, y, xy, yx), View(y, x, yx, xy);
    ReaderConsumes(x, x', yx, y);
    assert Flow(x', xy, y) == Flow(x, xy, y);
    if x'.reader.ReaderDone? {
      X.CutForward(w, []);
      X.CutBackward(v, []);
    } else if x'.reader.Delivering? {
    } else {
      X.DropBackward(v);
      if Admits(x, m) {
        X.Admit(w);
      } else {
        X.DropForward(w);
      }
    }
  }

  lemma DeliverStep(x: PeerState, y: PeerState, xy: seq<Message>, yx: seq<Message>)
    requires Shaped(x) && x.reader.Delivering? && DeliveryMatched(x.calls, x.reader)
    requires X.Inv(View(x, y, xy, yx)) && X.Inv(View(y, x, yx, xy))
    ensures x.calls.tickets[x.reader.call].slot.None?
    ensures var x' := WireNext(x, Deliver);
            X.Inv(View(x', y, xy, yx)) && X.Inv(View(y, x', yx, xy))
  {
    hide X.Inv;
    var x' := WireNext(x, Deliver);
    var v, w := View(x, y, xy, yx), View(y, x, yx, xy);
    var flow := Flow(y, yx, x);
    assert flow != [] && flow[0] == x.reader.reply;
    X.Deliver(v, x.reader.call);
    ReaderConsumes(x, x', yx, y);
    X.DropForward(w);
  }

  lemma WireStep(x: PeerState, y: PeerState, xy: seq<Message>, yx: seq<Message>, e: WireEvent)
    requires CanStep(x, yx, Wiring(e)) && DeliveryMatched(x.calls, x.reader)
    requires X.Inv(View(x, y, xy, yx)) && X.Inv(View(y, x, yx, xy))
    ensures var x' := WireNext(x, e); var xy', yx' := LinkOut(x, xy, Wiring(e)), LinkIn(yx, Wiring(e));
            X.Inv(View(x', y, xy', yx')) && X.Inv(View(y, x', yx', xy'))
  {
    hide X.Inv, Dispatched, DeliveryMatched;
    var x' := WireNext(x, e);
    var v, w := View(x, y, xy, yx), View(y, x, yx, xy);
    if e.Dispatch? {
      DispatchStep(x, y, xy, yx);
    } else if e.Deliver? {
      DeliverStep(x, y, xy, yx);
    } else if e.ReadFails? {
      X.CutForward(w, []);
      X.CutBackward(v, []);
    } else if e.Receive? {
      ReaderReceives(x, yx, y, e.m);
    } else {
      WriterMoves(x, xy, y, e);
      if e.Quit? || e.WriteFails? {
        var flow := Flow(x', LinkOut(x, xy, Wiring(e)), y);
        X.CutForward(v, flow);
        X.CutBackward(w, flow);
      }
    }
  }
}
