/**
 The capability server as an object: `addActive`, `removeActive`, `cancel`, `cancelAll` and `respond` as
 they change the shared fields, and the steps of the dispatch loop and of a worker built on them. Each step
 is proved to be one event of `CapabilityModel`.
 */
module CapabilityObject {
  import opened Basics
  import opened CapabilityModel
  import opened CapabilityRuns
  import Frame
  import O = OutputStream

  /** What the log is on the wire. */
  function Encodings(out: seq<Response>, encode: Response -> Option<Frame.Bytes>): seq<Frame.Bytes> {
    if out == [] then [] else
      var last := encode(out[|out| - 1]);
      Encodings(out[..|out| - 1], encode) + [if last.Some? then last.value else []]
  }

  lemma EncodingsSnoc(out: seq<Response>, r: Response, encode: Response -> Option<Frame.Bytes>)
    requires encode(r).Some?
    ensures Encodings(out + [r], encode) == Encodings(out, encode) + [encode(r).value]
    ensures Frame.Stream(Encodings(out + [r], encode)) ==
            Frame.Stream(Encodings(out, encode)) + Frame.FrameOf(encode(r).value)
  {
    assert (out + [r])[..|out|] == out;
    O.StreamSnoc(Encodings(out, encode), encode(r).value);
  }

  /** q is what the server is after step e. */
  ghost predicate Follows(p: Server, e: Event, q: Server) { Enabled(p, e) && q == Next(p, e) }

  class CapabilityServer {
    const encode: Response -> Option<Frame.Bytes>
    const maxBytes: int
    const sink: Frame.ByteSink

    var dispatcher: Dispatcher
    var handshaken: bool
    var seen: set<string>
    var limit: nat                   // capacity of sem
    var tokens: nat                  // tokens in sem
    var active: map<string, nat>     // to the cancel function of a worker
    var workers: seq<Worker>
    var cancelled: set<nat>          // cancel functions that have been called
    var out: seq<Response>           // frames completed under writeMu
    ghost var lost: nat
    ghost var torn: bool             // a write has failed, perhaps inside a frame
    ghost var shutdown: set<string>

    ghost function State(): Server
      reads this
    {
      Server(dispatcher, handshaken, seen, limit, tokens, active, workers, cancelled, out, lost, shutdown)
    }

    /** While no write has failed, the stream is exactly the frames of the log. */
    ghost predicate Wired()
      reads this, sink
    {
      (torn ==> lost > 0) && (!torn ==> sink.contents == Frame.Stream(Encodings(out, encode)))
    }

    ghost predicate Valid()
      reads this, sink
    {
      Inv(State()) && Wired()
    }

    constructor (encode: Response -> Option<Frame.Bytes>, maxBytes: int, sink: Frame.ByteSink)
      requires sink.contents == []
      ensures Valid() && State() == FRESH && this.sink == sink
      ensures this.encode == encode && this.maxBytes == maxBytes
    {
      this.encode, this.maxBytes, this.sink := encode, maxBytes, sink;
      dispatcher, handshaken, seen, limit, tokens := Reading, false, {}, 1, 0;
      active, workers, cancelled, out := map[], [], {}, [];
      lost, shutdown, torn := 0, {}, false;
      FreshInv();
      hide Inv;
    }

    /** What a valid server guarantees: the limit on executes, distinct responses, and the stream. */
    lemma Guarantees()
      requires Valid()
      ensures |Running(workers)| <= tokens <= limit <= 64
      ensures forall i, j :: 0 <= i < j < |out| ==> out[i].id != out[j].id
      ensures lost == 0 ==> sink.contents == Frame.Stream(Encodings(out, encode))
    {
      Basics.SubsetSize(Running(workers), Holders(workers));
      hide WorkersDistinct, Registry, CurrentIsNew, LogMatches, GreetsFirst, CancelsTruthful, SweptAll, ClosesDown;
    }

    // ---------- the registry and the writer ----------

    /** Registers a cancel function, unless the identifier is taken. */
    method AddActive(id: string, w: nat) returns (added: bool)
      modifies this`active
      ensures added <==> id !in old(active)
      ensures active == if added then old(active)[id := w] else old(active)
    {
      added := id !in active;
      if added {
        active := active[id := w];
      }
    }

    /** Removes the entry of id and calls the cancel function it held. */
    method RemoveActive(id: string)
      modifies this`active, this`cancelled
      ensures active == old(active) - {id}
      ensures cancelled == if id in old(active) then old(cancelled) + {old(active)[id]} else old(cancelled)
    {
      if id in active {
        cancelled := cancelled + {active[id]};
      }
      active := active - {id};
    }

    method Cancel(id: string) returns (accepted: bool)
      modifies this`cancelled
      ensures accepted <==> id in active
      ensures cancelled == if accepted then old(cancelled) + {active[id]} else old(cancelled)
    {
      accepted := id in active;
      if accepted {
        cancelled := cancelled + {active[id]};
      }
    }

    /** Collects the cancel functions under the lock, then calls them all. */
    method CancelAll()
      modifies this`cancelled
      ensures State() == CapabilityModel.CancelAll(old(State()))
    {
      var values := active.Values;
      var left := values;
      while left != {}
        invariant left <= values == active.Values
        invariant cancelled == old(cancelled) + (values - left)
        decreases left
      {
        var w :| w in left;
        cancelled := cancelled + {w};
        left := left - {w};
      }
    }

    /** Writes one response under the lock. It counts as written exactly when it encodes, its size is allowed and
        the stream takes all of it; a response that does not encode or fit leaves the stream alone. */
    method Respond(r: Response) returns (written: bool)
      requires Wired()
      modifies this`out, this`lost, this`torn, sink
      ensures Wired() && State() == Write(old(State()), r, written)
      ensures written ==> encode(r).Some? && Frame.Sendable(encode(r).value, maxBytes)
                          && sink.contents == old(sink.contents) + Frame.FrameOf(encode(r).value)
      ensures encode(r).None? || !Frame.Sendable(encode(r).value, maxBytes) ==>
              !written && sink.contents == old(sink.contents)
    {
      hide Encodings, Frame.Stream, Frame.FrameOf;
      var result := Frame.WriteFrame(sink, encode(r), maxBytes);
      written := result.Written?;
      if written {
        EncodingsSnoc(out, r, encode);
        out := out + [r];
      } else {
        lost := lost + 1;
        torn := torn || result.Broken?;
      }
    }

    // ---------- the dispatch loop ----------

    method Dispatch(request: Request)
      requires Valid() && dispatcher.Reading?
      modifies this
      ensures Valid() && Follows(old(State()), Looping(Receive(request)), State())
    {
      hide Inv;
      InvNext(State(), Looping(Receive(request)));
      if !WellFormed(request) || request.id in seen {
        dispatcher := Ending;
        return;
      }
      seen := seen + {request.id};
      if request.verb != "handshake" && !handshaken {
        dispatcher := Ending;
      } else if request.verb == "handshake" {
        dispatcher := if handshaken || request.params.Undecodable? then Ending else Handshaking(request.id);
      } else if request.verb == "health" {
        dispatcher := Probing(request.id);
      } else if request.verb == "execute" {
        dispatcher := if request.params.Undecodable? then Ending else Acquiring(request.id);
      } else if request.verb == "cancel" {
        dispatcher := if request.params.Undecodable? then Ending else Cancelling(request.id, request.params.target);
      } else if request.verb == "shutdown" {
        dispatcher := Sweeping(request.id);
        shutdown := shutdown + {request.id};
      } else {
        dispatcher := Ending;
      }
    }

    /** The handshake handler has returned. */
    method Greet(greeting: Greeting)
      requires Valid() && dispatcher.Handshaking?
      modifies this
      ensures Valid() && Follows(old(State()), Looping(Greeted(greeting)), State())
    {
      hide Inv;
      InvNext(State(), Looping(Greeted(greeting)));
      var id := dispatcher.id;
      if greeting.Declined? {
        dispatcher := Answering(Response(id, GreetingBody(false)), Stop);
      } else if greeting.version != PROTOCOL_VERSION || greeting.maxConcurrency < 1 || greeting.maxConcurrency > 64 {
        dispatcher := Ending;
      } else {
        limit, tokens := greeting.maxConcurrency, 0;
        dispatcher := Answering(Response(id, GreetingBody(true)), After.Greet);
      }
    }

    /** Waiting for the semaphore: a token is taken, or the context ends. */
    method AcquireOrGiveUp(l: LoopEvent)
      requires Valid() && LoopEnabled(State(), l) && (l.Acquire? || l.GiveUp?)
      modifies this
      ensures Valid() && Follows(old(State()), Looping(l), State())
    {
      hide Inv;
      InvNext(State(), Looping(l));
      if l.Acquire? {
        tokens := tokens + 1;
        dispatcher := Registering(dispatcher.id);
      } else {
        dispatcher := Ending;
      }
    }

    /** The worker is registered and started; its identifier is always free, so the loop goes on. */
    method Enroll()
      requires Valid() && dispatcher.Registering?
      modifies this
      ensures Valid() && Follows(old(State()), Looping(LoopEvent.Enroll), State())
      ensures dispatcher.Reading? && workers == old(workers) + [Worker(old(dispatcher.id), Executing)]
    {
      hide Inv;
      InvNext(State(), Looping(LoopEvent.Enroll));
      ghost var before := State();
      var id := dispatcher.id;
      var added := AddActive(id, |workers|);
      if !added {
        tokens := Less(tokens);
        dispatcher := Ending;
      } else {
        workers := workers + [Worker(id, Executing)];
        dispatcher := Reading;
      }
      EnrollGoesOn(before);
    }

    method LookUp()
      requires Valid() && dispatcher.Cancelling?
      modifies this
      ensures Valid() && Follows(old(State()), Looping(LoopEvent.LookUp), State())
    {
      hide Inv;
      InvNext(State(), Looping(LoopEvent.LookUp));
      var (id, target) := (dispatcher.id, dispatcher.target);
      var accepted := Cancel(target);
      dispatcher := Answering(Response(id, CancelBody(target, accepted, |workers|)), Continue);
    }

    /** The sweep of a shutdown, or the deferred one when the loop ends. */
    method Sweep(l: LoopEvent)
      requires Valid() && LoopEnabled(State(), l) && (l.SweepActive? || l.EndSweep?)
      modifies this
      ensures Valid() && Follows(old(State()), Looping(l), State())
    {
      hide Inv;
      InvNext(State(), Looping(l));
      CancelAll();
      dispatcher := if l.SweepActive? then Draining(dispatcher.id) else Joining;
    }

    /** `workers.Wait()` returns. */
    method Wait(l: LoopEvent)
      requires Valid() && LoopEnabled(State(), l) && (l.Drained? || l.Join?)
      modifies this
      ensures Valid() && Follows(old(State()), Looping(l), State())
    {
      hide Inv;
      InvNext(State(), Looping(l));
      dispatcher := if l.Drained? then ShuttingDown(dispatcher.id) else Ended;
    }

    /** A handler called by the loop itself returns, or no further request can be read. */
    method HandlerReturns(l: LoopEvent)
      requires Valid() && LoopEnabled(State(), l) && (l.Probed? || l.ShutDown? || l.ReadFails?)
      modifies this
      ensures Valid() && Follows(old(State()), Looping(l), State())
    {
      hide Inv;
      InvNext(State(), Looping(l));
      match l
      case Probed(ok) => dispatcher := Answering(Response(dispatcher.id, HealthBody(ok)), Continue);
      case ShutDown(ok) => dispatcher := Answering(Response(dispatcher.id, ShutdownBody(ok)), Stop);
      case ReadFails => dispatcher := Ending;
    }

    /** The loop writes its response; a lost one, or a shutdown, ends the loop. */
    method Answer() returns (written: bool)
      requires Valid() && dispatcher.Answering?
      modifies this, sink
      ensures Valid() && Follows(old(State()), Looping(LoopEvent.Answer(written)), State())
      ensures written ==> encode(old(dispatcher.response)).Some?
                          && sink.contents == old(sink.contents) + Frame.FrameOf(encode(old(dispatcher.response)).value)
    {
      hide Inv;
      InvNext(State(), Looping(LoopEvent.Answer(true)));
      InvNext(State(), Looping(LoopEvent.Answer(false)));
      var after := dispatcher.after;
      written := Respond(dispatcher.response);
      if !written || after.Stop? {
        dispatcher := Ending;
      } else {
        handshaken := handshaken || after.Greet?;
        dispatcher := Reading;
      }
    }

    // ---------- a worker ----------

    method ExecuteReturns(w: nat, ok: bool)
      requires Valid() && WorkEnabled(State(), w, Executed(ok))
      modifies this`workers
      ensures Valid() && Follows(old(State()), Working(w, Executed(ok)), State())
    {
      hide Inv;
      InvNext(State(), Working(w, Executed(ok)));
      workers := workers[w := workers[w].(phase := Responding(ok))];
    }

    method WorkerResponds(w: nat) returns (written: bool)
      requires Valid() && w < |workers| && workers[w].phase.Responding?
      modifies this, sink
      ensures Valid() && Follows(old(State()), Working(w, WorkEvent.Respond(written)), State())
    {
      hide Inv;
      InvNext(State(), Working(w, WorkEvent.Respond(true)));
      InvNext(State(), Working(w, WorkEvent.Respond(false)));
      var id, phase := workers[w].id, workers[w].phase;
      workers := workers[w := Worker(id, Removing)];
      written := Respond(Response(id, ExecuteBody(phase.ok)));
    }

    /** The deferred calls of a worker, last one first. */
    method WorkerUnwinds(w: nat, e: WorkEvent)
      requires Valid() && WorkEnabled(State(), w, e) && (e.Remove? || e.Release? || e.Done?)
      modifies this
      ensures Valid() && Follows(old(State()), Working(w, e), State())
    {
      hide Inv;
      InvNext(State(), Working(w, e));
      var id := workers[w].id;
      workers := workers[w := Worker(id, PhaseAfter(e))];
      match e
      case Remove => RemoveActive(id);
      case Release => tokens := tokens - 1;
      case Done =>
    }
  }
}
