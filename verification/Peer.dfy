/**
 The peer as an object. Each method is one critical section or channel operation of the goroutines that
 share it; a `select` takes the case it was scheduled to take, among those that are ready. Every method is
 proved to move the abstract state by exactly one event of `PeerModel`.
 */
module PeerObject {
  import opened Basics
  import opened Numerals
  import opened Envelope
  import opened PeerModel
  import opened PeerInvariants
  import opened PeerHistory

  class Peer {
    const instance: string
    const prefix: string
    var serial: nat                   // uint64
    var stage: Stage                  // done, the stream and the sweep of Close
    var out: seq<Message>             // channel of capacity 32
    var slots: nat                    // tokens in the channel of capacity 8
    var pending: map<string, nat>     // to the reply channel of a call
    var active: map<string, nat>      // to the cancel function of a handler
    var tickets: seq<Ticket>          // the calls, with their reply channels
    var fired: set<nat>               // cancel functions that have been called

    // program counters of the goroutines, and the record of what they did
    var reader: Reader
    var writer: Writer
    var callers: seq<Caller>
    var workers: seq<Worker>
    var jobs: seq<Job>
    ghost var issued: map<string, nat>
    ghost var admitted: map<string, nat>
    ghost var swept: nat

    ghost function HandlerSide(): Handlers
      reads this
    {
      Handlers(active, slots, workers, jobs, admitted, fired, swept)
    }

    ghost function State(): PeerState
      reads this
    {
      PeerState(instance, prefix, stage, reader, writer, out,
                Calls(serial, pending, callers, tickets, issued), HandlerSide())
    }

    ghost predicate Valid()
      reads this
    {
      Shaped(State()) && PeerInv(State())
    }

    constructor (instance: string, prefix: string)
      ensures Valid() && State() == Fresh(instance, prefix)
    {
      FreshPeer(instance, prefix);
      hide PeerInv;
      this.instance, this.prefix := instance, prefix;
      serial, stage, out, slots := 0, Open, [], 0;
      pending, active, tickets, fired := map[], map[], [], {};
      reader, writer, callers, workers, jobs := Reading, Polling, [], [], [];
      issued, admitted, swept := map[], map[], 0;
    }

    /** What a valid peer guarantees: the limits on handlers and calls, and that every entry of `active` belongs to
        the request it is filed under. */
    lemma Guarantees()
      requires Valid()
      ensures |active| <= slots <= SLOTS
      ensures forall id :: id in active ==> active[id] < |jobs| && jobs[active[id]].request.id == id
      ensures |tickets| <= WRAP ==> |pending| <= QUEUE
    {
      hide PeerInv;
      PeerBounds(State());
    }

    // ---------- Call ----------

    /** A new call, with the request that it will send: what it was asked for, and the next identifier. */
    method Draw(verb: string, deadline: nat, raw: string) returns (k: nat)
      requires Valid() && raw != ""
      modifies this
      ensures Valid() && Follows(old(State()), Issue(verb, deadline, raw), State()) && k == |old(tickets)|
      ensures |tickets| == k + 1 && tickets[..k] == old(tickets) && !tickets[k].sent
      ensures var m := tickets[k].request;
              && m.verb == verb && m.deadline == deadline && m.payload == raw && !m.reply && m.error == ""
              && m.version == "special/1.0" && m.instance == instance && m.id == prefix + "-" + Decimal(serial)
    {
      hide PeerInv;
      PeerInvNext(State(), Issue(verb, deadline, raw));
      k := |tickets|;
      serial := (serial + 1) % WRAP;
      var id := CallId(prefix, serial);
      callers := callers + [Numbered];
      tickets := tickets + [Ticket(RequestMessage(instance, id, verb, deadline, raw), false, None, None)];
      issued := issued[id := k];
    }

    method Register(k: nat) returns (ok: bool)
      requires Valid() && May(State(), Calling(k, CallEvent.Register))
      modifies this
      ensures Valid() && Follows(old(State()), Calling(k, CallEvent.Register), State())
      ensures ok <==> |old(pending)| < QUEUE
    {
      hide PeerInv;
      PeerInvNext(State(), Calling(k, CallEvent.Register));
      ok := |pending| < QUEUE;
      if ok {
        pending := pending[tickets[k].request.id := k];
        callers := callers[k := Registered];
      } else {
        callers := callers[k := Returned(Refused)];
      }
    }

    /** `send` of the request: it enters `out`, or the context or `done` ends the call. */
    method SendRequest(k: nat, c: CallEvent)
      requires Valid() && May(State(), Calling(k, c)) && (c.Send? || c.Abort?)
      modifies this
      ensures Valid() && Follows(old(State()), Calling(k, c), State())
    {
      hide PeerInv;
      PeerInvNext(State(), Calling(k, c));
      if c.Send? {
        out := out + [tickets[k].request];
        tickets := tickets[k := tickets[k].(sent := true)];
        callers := callers[k := Waiting];
      } else {
        callers := callers[k := Leaving(NotSent)];
      }
    }

    /** The first `select`: with a reply, the call returns the error in it, or its payload for decoding. */
    method AwaitReply(k: nat, c: CallEvent) returns (result: Option<CallResult>)
      requires Valid() && May(State(), Calling(k, c)) && (c.Take? || c.SeeDone? || c.Expire?)
      modifies this
      ensures Valid() && Follows(old(State()), Calling(k, c), State())
      ensures c.Take? ==> old(tickets[k].slot).Some? && tickets[k].taken == old(tickets[k].slot)
      ensures result == if c.Take? then Some(MadeOf(old(tickets[k].slot).value)) else None
    {
      hide PeerInv;
      PeerInvNext(State(), Calling(k, c));
      result := None;
      if c.Take? {
        var m := tickets[k].slot.value;
        tickets := tickets[k := tickets[k].(slot := None, taken := Some(m))];
        result := if m.error != "" then Some(Fails(m.error)) else Some(Decodes(m.payload));
        callers := callers[k := Leaving(Took)];
      } else if c.SeeDone? {
        callers := callers[k := Leaving(PeerDone)];
      } else {
        callers := callers[k := Cancelling];
      }
    }

    method SendCancel(k: nat, c: CallEvent)
      requires Valid() && May(State(), Calling(k, c)) && (c.SendCancel? || c.CancelFails?)
      modifies this
      ensures Valid() && Follows(old(State()), Calling(k, c), State())
      ensures c.SendCancel? ==>
                && k < |tickets|
                && out == old(out)
                          + [Message("special/1.0", instance, tickets[k].request.id, false, "cancel", 0, "", "")]
    {
      hide PeerInv;
      PeerInvNext(State(), Calling(k, c));
      if c.SendCancel? {
        callers := callers[k := Settling];
        out := out + [CancelMessage(instance, tickets[k].request.id)];
      } else {
        callers := callers[k := CancelLost];
        stage := if stage == Open then DoneClosed else stage;
      }
    }

    method AwaitAck(k: nat, c: CallEvent)
      requires Valid() && May(State(), Calling(k, c)) && (c.TakeAck? || c.SettleDone? || c.SettleTimeout?)
      modifies this
      ensures Valid() && Follows(old(State()), Calling(k, c), State())
    {
      hide PeerInv;
      PeerInvNext(State(), Calling(k, c));
      if c.TakeAck? {
        tickets := tickets[k := tickets[k].(slot := None, taken := tickets[k].slot)];
        callers := callers[k := Leaving(Acked)];
      } else if c.SettleDone? {
        callers := callers[k := Leaving(GaveUp)];
      } else {
        callers := callers[k := GivingUp];
        stage := if stage == Open then DoneClosed else stage;
      }
    }

    /** `Close` returns to a call that closed the peer, after the sweep. */
    method CloseReturns(k: nat)
      requires Valid() && May(State(), Calling(k, CallEvent.CloseReturns))
      modifies this
      ensures Valid() && Follows(old(State()), Calling(k, CallEvent.CloseReturns), State())
    {
      hide PeerInv;
      PeerInvNext(State(), Calling(k, CallEvent.CloseReturns));
      callers := callers[k := if callers[k] == CancelLost then Settling else Leaving(GaveUp)];
    }

    method Unregister(k: nat)
      requires Valid() && May(State(), Calling(k, CallEvent.Return))
      modifies this
      ensures Valid() && Follows(old(State()), Calling(k, CallEvent.Return), State())
    {
      hide PeerInv;
      PeerInvNext(State(), Calling(k, CallEvent.Return));
      pending := pending - {tickets[k].request.id};
      callers := callers[k := Returned(callers[k].why)];
    }

    // ---------- write ----------

    method WriterSelect(e: WireEvent)
      requires Valid() && May(State(), Wiring(e)) && (e.Fetch? || e.Quit?)
      modifies this
      ensures Valid() && Follows(old(State()), Wiring(e), State())
    {
      hide PeerInv;
      PeerInvNext(State(), Wiring(e));
      if e.Fetch? {
        writer, out := Writing(out[0]), out[1..];
      } else {
        writer := WriterDone;
      }
    }

    /** One `WriteFrame`: what reached the stream, whether or not the write reported success. */
    method WriteOne(e: WireEvent) returns (delivered: Option<Message>)
      requires Valid() && May(State(), Wiring(e)) && (e.Write? || e.WriteFails?)
      modifies this
      ensures Valid() && Follows(old(State()), Wiring(e), State())
      ensures delivered == if e.WriteFails? && !e.delivered then None else Some(old(writer.frame))
    {
      hide PeerInv;
      PeerInvNext(State(), Wiring(e));
      delivered := if e.WriteFails? && !e.delivered then None else Some(writer.frame);
      if e.Write? {
        writer := Polling;
      } else {
        writer := WriterDone;
        stage := if stage == Open then DoneClosed else stage;
      }
    }

    // ---------- read ----------

    method ReadFrame(e: WireEvent)
      requires Valid() && May(State(), Wiring(e)) && (e.Receive? || e.ReadFails?)
      modifies this
      ensures Valid() && Follows(old(State()), Wiring(e), State())
    {
      hide PeerInv;
      PeerInvNext(State(), Wiring(e));
      if e.Receive? {
        reader := Holding(e.m);
      } else {
        StopReading();
      }
    }

    method StopReading()
      modifies this
      ensures State() == PeerModel.StopReading(old(State()))
    {
      reader := ReaderDone;
      stage := if stage == Open then DoneClosed else stage;
    }

    /** The envelope checks and the critical section of the reader. */
    method Dispatch()
      requires Valid() && reader.Holding?
      modifies this
      ensures Valid() && Follows(old(State()), Wiring(WireEvent.Dispatch), State())
    {
      hide PeerInv;
      PeerInvNext(State(), Wiring(WireEvent.Dispatch));
      var m := reader.held;
      assert Shaped(Dispatched(State(), m)) && PeerInv(Dispatched(State(), m));
      hide Shaped;
      if !WellFormed(m, instance) {
        StopReading();
      } else if m.reply {
        reader := if m.id in pending then Delivering(pending[m.id], m) else Reading;
      } else if m.verb == CANCEL {
        if m.id in active {
          fired := fired + {active[m.id]};
        }
        reader := Reading;
      } else if m.id in active || m.verb == "" || m.deadline == 0 || slots >= SLOTS {
        StopReading();
      } else {
        assert Admits(State(), m);
        Admit(m);
      }
    }

    /** A token, the entry in `active`, and the goroutine about to be started. */
    method Admit(m: Message)
      modifies this`slots, this`active, this`workers, this`jobs, this`admitted, this`reader
      ensures HandlerSide() == old(HandlerSide()).Admit(m) && reader == Spawning(|old(jobs)|)
    {
      var h := |jobs|;
      slots := slots + 1;
      active := active[m.id := h];
      workers, jobs, admitted := workers + [Admitted], jobs + [Job(m, None, false)], admitted[m.id := h];
      reader := Spawning(h);
    }

    /** The non-blocking send on the reply channel. */
    method Deliver()
      requires Valid() && reader.Delivering?
      modifies this
      ensures Valid() && Follows(old(State()), Wiring(WireEvent.Deliver), State())
    {
      hide PeerInv;
      PeerInvNext(State(), Wiring(WireEvent.Deliver));
      var k := reader.call;
      if tickets[k].slot.Some? {
        StopReading();
      } else {
        tickets := tickets[k := tickets[k].(slot := Some(reader.reply))];
        reader := Reading;
      }
    }

    method Spawn()
      requires Valid() && reader.Spawning?
      modifies this
      ensures Valid() && Follows(old(State()), Wiring(WireEvent.Spawn), State())
    {
      hide PeerInv;
      PeerInvNext(State(), Wiring(WireEvent.Spawn));
      workers := workers[reader.worker := Running];
      reader := Reading;
    }

    // ---------- handle ----------

    /** The handler function has come to an end, normally, with an error, or in a recovered panic. */
    method Finish(h: nat, outcome: Outcome)
      requires Valid() && May(State(), Working(h, WorkEvent.Finish(outcome)))
      modifies this
      ensures Valid() && Follows(old(State()), Working(h, WorkEvent.Finish(outcome)), State())
      ensures h < |jobs| && jobs[h].response.Some?
      ensures Carries(jobs[h].response.value, instance, jobs[h].request.id, outcome)
    {
      hide PeerInv;
      PeerInvNext(State(), Working(h, WorkEvent.Finish(outcome)));
      ResponseCarries(instance, jobs[h].request.id, outcome);
      var response := ResponseMessage(instance, jobs[h].request.id, outcome);
      jobs := jobs[h := jobs[h].(response := Some(response))];
      workers := workers[h := Replying];
    }

    method SendReply(h: nat, w: WorkEvent)
      requires Valid() && May(State(), Working(h, w)) && (w.Reply? || w.ReplyFails?)
      modifies this
      ensures Valid() && Follows(old(State()), Working(h, w), State())
    {
      hide PeerInv;
      PeerInvNext(State(), Working(h, w));
      if w.Reply? {
        out := out + [jobs[h].response.value];
        jobs := jobs[h := jobs[h].(queued := true)];
        workers := workers[h := Unwinding];
      } else {
        stage := if stage == Open then DoneClosed else stage;
        workers := workers[h := ReplyLost];
      }
    }

    /** `Close` returns to a handler goroutine that closed the peer, after the sweep. */
    method CloseOver(h: nat)
      requires Valid() && May(State(), Working(h, WorkEvent.CloseOver))
      modifies this
      ensures Valid() && Follows(old(State()), Working(h, WorkEvent.CloseOver), State())
    {
      hide PeerInv;
      PeerInvNext(State(), Working(h, WorkEvent.CloseOver));
      workers := workers[h := Unwinding];
    }

    method Forget(h: nat)
      requires Valid() && May(State(), Working(h, WorkEvent.Forget))
      modifies this
      ensures Valid() && Follows(old(State()), Working(h, WorkEvent.Forget), State())
    {
      hide PeerInv;
      PeerInvNext(State(), Working(h, WorkEvent.Forget));
      fired := fired + {h};
      active := active - {jobs[h].request.id};
      workers := workers[h := Releasing];
    }

    method Release(h: nat)
      requires Valid() && May(State(), Working(h, WorkEvent.Release))
      modifies this
      ensures Valid() && Follows(old(State()), Working(h, WorkEvent.Release), State())
    {
      hide PeerInv;
      PeerInvNext(State(), Working(h, WorkEvent.Release));
      slots := slots - 1;
      workers := workers[h := Gone];
    }

    // ---------- Close ----------

    method CloseDone()
      requires Valid()
      modifies this
      ensures Valid() && Follows(old(State()), Wiring(WireEvent.Close), State())
    {
      hide PeerInv;
      PeerInvNext(State(), Wiring(WireEvent.Close));
      stage := if stage == Open then DoneClosed else stage;
    }

    method CloseStream()
      requires Valid() && stage == DoneClosed
      modifies this
      ensures Valid() && Follows(old(State()), Wiring(WireEvent.CloseStream), State())
    {
      hide PeerInv;
      PeerInvNext(State(), Wiring(WireEvent.CloseStream));
      stage := StreamClosed;
    }

    /** The loop over `active` under the lock. */
    method FireActive()
      modifies this`fired
      ensures fired == old(fired) + active.Values
    {
      var left := active.Keys;
      while left != {}
        invariant left <= active.Keys
        invariant fired == old(fired) + set id | id in active.Keys - left :: active[id]
        decreases left
      {
        var id :| id in left;
        fired := fired + {active[id]};
        left := left - {id};
      }
      assert active.Values == set id | id in active.Keys :: active[id];
    }

    method Sweep()
      requires Valid() && stage == StreamClosed
      modifies this`fired, this`stage, this`swept
      ensures Valid() && Follows(old(State()), Wiring(WireEvent.Sweep), State())
    {
      hide PeerInv;
      PeerInvNext(State(), Wiring(WireEvent.Sweep));
      FireActive();
      stage := Swept;
      swept := |jobs|;
    }
  }
}
