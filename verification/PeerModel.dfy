/**
 One side of the duplex connection as a state machine: every critical section and every channel
 operation of `Peer` is one atomic step. The program counters `pcs` are those of the goroutines
 running `Call` and `handle`; tickets and jobs record what each of them sent, received and computed,
 and stay after the goroutine has gone.
 */
module PeerModel {
  import opened Basics
  import opened Envelope

  const QUEUE := 32    // capacity of `out`; also the limit on `pending`
  const SLOTS := 8     // capacity of `slots`

  datatype Stage = Open | DoneClosed | StreamClosed | Swept
  datatype Reader = Reading | Holding(held: Message)
    | Delivering(call: nat, reply: Message) | Spawning(worker: nat) | ReaderDone
  datatype Writer = Polling | Writing(frame: Message) | WriterDone
  datatype Exit = Refused | NotSent | Took | PeerDone | Acked | GaveUp
  /** `CancelLost`, `GivingUp` and `ReplyLost` are inside `Close`, which returns to no caller before its sweep. */
  datatype Caller =
    | Numbered | Registered | Waiting | Cancelling | CancelLost | Settling | GivingUp
    | Leaving(why: Exit) | Returned(why: Exit)
  datatype Worker = Admitted | Running | Replying | ReplyLost | Unwinding | Releasing | Gone

  // ---------- the caller side ----------

  /** A call: its request, whether that entered `out`, its one-place reply channel, the reply it took. */
  datatype Ticket = Ticket(request: Message, sent: bool, slot: Option<Message>, taken: Option<Message>)

  datatype Calls = Calls(
    serial: nat, pending: map<string, nat>, pcs: seq<Caller>, tickets: seq<Ticket>, issued: map<string, nat>)
  {
    ghost predicate Shaped() {
      && |pcs| == |tickets|
      && forall id :: id in pending ==> pending[id] < |tickets|
    }

    function Draw(instance: string, prefix: string, verb: string, deadline: nat, raw: string): Calls {
      var next := (serial + 1) % WRAP;
      var id := CallId(prefix, next);
      var request := RequestMessage(instance, id, verb, deadline, raw);
      Calls(next, pending, pcs + [Numbered], tickets + [Ticket(request, false, None, None)], issued[id := |tickets|])
    }

    function Move(k: nat, pc: Caller): Calls
      requires k < |pcs|
    {
      this.(pcs := pcs[k := pc])
    }

    function Enter(k: nat): Calls
      requires k < |pcs| && k < |tickets|
    {
      this.(pcs := pcs[k := Registered], pending := pending[tickets[k].request.id := k])
    }

    function MarkSent(k: nat): Calls
      requires k < |pcs| && k < |tickets|
    {
      this.(pcs := pcs[k := Waiting], tickets := tickets[k := tickets[k].(sent := true)])
    }

    function TakeReply(k: nat, why: Exit): Calls
      requires k < |pcs| && k < |tickets|
    {
      this.(pcs := pcs[k := Leaving(why)], tickets := tickets[k := tickets[k].(slot := None, taken := tickets[k].slot)])
    }

    function Offer(k: nat, m: Message): Calls
      requires k < |tickets|
    {
      this.(tickets := tickets[k := tickets[k].(slot := Some(m))])
    }

    function Remove(k: nat): Calls
      requires k < |pcs| && k < |tickets| && pcs[k].Leaving?
    {
      this.(pcs := pcs[k := Returned(pcs[k].why)], pending := pending - {tickets[k].request.id})
    }
  }

  // ---------- the handler side ----------

  /** An accepted request: the response computed for it, and whether that entered `out`. */
  datatype Job = Job(request: Message, response: Option<Message>, queued: bool)

  datatype Handlers = Handlers(
    active: map<string, nat>, slots: nat, pcs: seq<Worker>, jobs: seq<Job>, admitted: map<string, nat>,
    fired: set<nat>, swept: nat)
  {
    ghost predicate Shaped() {
      && |pcs| == |jobs|
      && forall id :: id in active ==> active[id] < |jobs|
    }

    function Admit(m: Message): Handlers {
      var h := |jobs|;
      this.(active := active[m.id := h], slots := slots + 1, pcs := pcs + [Admitted],
            jobs := jobs + [Job(m, None, false)], admitted := admitted[m.id := h])
    }

    function Move(h: nat, pc: Worker): Handlers
      requires h < |pcs|
    {
      this.(pcs := pcs[h := pc])
    }

    function Respond(h: nat, response: Message): Handlers
      requires h < |pcs| && h < |jobs|
    {
      this.(pcs := pcs[h := Replying], jobs := jobs[h := jobs[h].(response := Some(response))])
    }

    function MarkQueued(h: nat): Handlers
      requires h < |pcs| && h < |jobs|
    {
      this.(pcs := pcs[h := Unwinding], jobs := jobs[h := jobs[h].(queued := true)])
    }

    function Forget(h: nat): Handlers
      requires h < |pcs| && h < |jobs|
    {
      this.(pcs := pcs[h := Releasing], fired := fired + {h}, active := active - {jobs[h].request.id})
    }

    function Release(h: nat): Handlers
      requires h < |pcs| && slots > 0
    {
      this.(pcs := pcs[h := Gone], slots := slots - 1)
    }

    function Fire(id: string): Handlers {
      if id in active then this.(fired := fired + {active[id]}) else this
    }

    function FireAll(): Handlers {
      this.(fired := fired + active.Values, swept := |jobs|)
    }
  }

  // ---------- the peer ----------

  datatype PeerState = PeerState(
    instance: string, prefix: string, stage: Stage,
    reader: Reader, writer: Writer, out: seq<Message>, calls: Calls, handlers: Handlers)

  function Fresh(instance: string, prefix: string): PeerState {
    PeerState(instance, prefix, Open, Reading, Polling, [],
              Calls(0, map[], [], [], map[]), Handlers(map[], 0, [], [], map[], {}, 0))
  }

  /** Program counters and records go together, and every reference names an existing one. */
  ghost predicate Shaped(p: PeerState) {
    && p.calls.Shaped() && p.handlers.Shaped()
    && (p.reader.Delivering? ==> p.reader.call < |p.calls.tickets|)
    && (p.reader.Spawning? ==> p.reader.worker < |p.handlers.jobs|)
  }

  /** Steps of the k-th `Call` after it drew its serial. */
  datatype CallEvent =
    | Register | Send | Abort | Take | SeeDone | Expire | SendCancel | CancelFails
    | TakeAck | SettleDone | SettleTimeout | CloseReturns | Return

  /** Steps of the goroutine running `handle` for the h-th accepted request. */
  datatype WorkEvent = Finish(outcome: Outcome) | Reply | ReplyFails | CloseOver | Forget | Release

  /** Steps of the reader, the writer and whoever runs `Close`. */
  datatype WireEvent =
    | Fetch | Quit | Write | WriteFails(delivered: bool)
    | Receive(m: Message) | ReadFails | Dispatch | Deliver | Spawn
    | Close | CloseStream | Sweep

  datatype Event =
    | Issue(verb: string, deadline: nat, raw: string)
    | Calling(k: nat, c: CallEvent)
    | Working(h: nat, w: WorkEvent)
    | Wiring(e: WireEvent)

  predicate StreamUsable(p: PeerState) { p.stage == Open || p.stage == DoneClosed }

  ghost predicate CallEnabled(p: PeerState, k: nat, c: CallEvent)
    requires Shaped(p)
  {
    k < |p.calls.pcs| &&
    var pc := p.calls.pcs[k];
    match c
    case Register => pc == Numbered
    case Send => pc == Registered && |p.out| < QUEUE
    case Abort => pc == Registered
    case Take => pc == Waiting && p.calls.tickets[k].slot.Some?
    case SeeDone => pc == Waiting && p.stage != Open
    case Expire => pc == Waiting
    case SendCancel => pc == Cancelling && |p.out| < QUEUE
    case CancelFails => pc == Cancelling
    case TakeAck => pc == Settling && p.calls.tickets[k].slot.Some?
    case SettleDone => pc == Settling && p.stage != Open
    case SettleTimeout => pc == Settling
    case CloseReturns => (pc == CancelLost || pc == GivingUp) && p.stage == Swept
    case Return => pc.Leaving?
  }

  ghost predicate WorkEnabled(p: PeerState, h: nat, w: WorkEvent)
    requires Shaped(p)
  {
    h < |p.handlers.pcs| &&
    var pc := p.handlers.pcs[h];
    match w
    case Finish(_) => pc == Running
    case Reply => pc == Replying && p.handlers.jobs[h].response.Some? && |p.out| < QUEUE
    case ReplyFails => pc == Replying
    case CloseOver => pc == ReplyLost && p.stage == Swept
    case Forget => pc == Unwinding
    case Release => pc == Releasing && p.handlers.slots > 0
  }

  predicate WireEnabled(p: PeerState, e: WireEvent)
  {
    match e
    case Fetch => p.writer == Polling && p.out != []
    case Quit => p.writer == Polling && p.stage != Open
    case Write => p.writer.Writing? && StreamUsable(p)
    case WriteFails(delivered) => p.writer.Writing? && (delivered ==> StreamUsable(p))
    case Receive(_) => p.reader == Reading && StreamUsable(p)
    case ReadFails => p.reader == Reading
    case Dispatch => p.reader.Holding?
    case Deliver => p.reader.Delivering?
    case Spawn => p.reader.Spawning?
    case Close => true
    case CloseStream => p.stage == DoneClosed
    case Sweep => p.stage == StreamClosed
  }

  ghost predicate Enabled(p: PeerState, e: Event)
    requires Shaped(p)
  {
    match e
    case Issue(_, _, raw) => raw != ""
    case Calling(k, c) => CallEnabled(p, k, c)
    case Working(h, w) => WorkEnabled(p, h, w)
    case Wiring(w) => WireEnabled(p, w)
  }

  /** `close(p.done)`, once. */
  function Shut(p: PeerState): PeerState {
    if p.stage == Open then p.(stage := DoneClosed) else p
  }

  /** The reader returns; its deferred call closes the peer. */
  function StopReading(p: PeerState): PeerState { Shut(p.(reader := ReaderDone)) }

  /** A new request is admitted: neither active already, nor malformed, nor beyond the slots. */
  predicate Admits(p: PeerState, m: Message) {
    && WellFormed(m, p.instance) && !m.reply && m.verb != CANCEL
    && m.id !in p.handlers.active && m.verb != "" && m.deadline != 0 && p.handlers.slots < SLOTS
  }

  /** What the reader does with the message it holds, in its critical section. */
  function Dispatched(p: PeerState, m: Message): PeerState
  {
    if !WellFormed(m, p.instance) then StopReading(p)
    else if m.reply then
      p.(reader := if m.id in p.calls.pending then Delivering(p.calls.pending[m.id], m) else Reading)
    else if m.verb == CANCEL then p.(reader := Reading, handlers := p.handlers.Fire(m.id))
    else if Admits(p, m) then p.(reader := Spawning(|p.handlers.jobs|), handlers := p.handlers.Admit(m))
    else StopReading(p)
  }

  function CallNext(p: PeerState, k: nat, c: CallEvent): PeerState
    requires Shaped(p) && CallEnabled(p, k, c)
  {
    var cs := p.calls;
    var request := cs.tickets[k].request;
    match c
    case Register => p.(calls := if |cs.pending| >= QUEUE then cs.Move(k, Returned(Refused)) else cs.Enter(k))
    case Send => p.(calls := cs.MarkSent(k), out := p.out + [request])
    case Abort => p.(calls := cs.Move(k, Leaving(NotSent)))
    case Take => p.(calls := cs.TakeReply(k, Took))
    case SeeDone => p.(calls := cs.Move(k, Leaving(PeerDone)))
    case Expire => p.(calls := cs.Move(k, Cancelling))
    case SendCancel => p.(calls := cs.Move(k, Settling), out := p.out + [CancelMessage(p.instance, request.id)])
    case CancelFails => Shut(p.(calls := cs.Move(k, CancelLost)))
    case TakeAck => p.(calls := cs.TakeReply(k, Acked))
    case SettleDone => p.(calls := cs.Move(k, Leaving(GaveUp)))
    case SettleTimeout => Shut(p.(calls := cs.Move(k, GivingUp)))
    case CloseReturns => p.(calls := cs.Move(k, if cs.pcs[k] == CancelLost then Settling else Leaving(GaveUp)))
    case Return => p.(calls := cs.Remove(k))
  }

  function WorkNext(p: PeerState, h: nat, w: WorkEvent): PeerState
    requires Shaped(p) && WorkEnabled(p, h, w)
  {
    var hs := p.handlers;
    match w
    case Finish(outcome) =>
      p.(handlers := hs.Respond(h, ResponseMessage(p.instance, hs.jobs[h].request.id, outcome)))
    case Reply => p.(handlers := hs.MarkQueued(h), out := p.out + [hs.jobs[h].response.value])
    case ReplyFails => Shut(p.(handlers := hs.Move(h, ReplyLost)))
    case CloseOver => p.(handlers := hs.Move(h, Unwinding))
    case Forget => p.(handlers := hs.Forget(h))
    case Release => p.(handlers := hs.Release(h))
  }

  function WireNext(p: PeerState, e: WireEvent): PeerState
    requires Shaped(p) && WireEnabled(p, e)
  {
    match e
    case Fetch => p.(writer := Writing(p.out[0]), out := p.out[1..])
    case Quit => p.(writer := WriterDone)
    case Write => p.(writer := Polling)
    case WriteFails(_) => Shut(p.(writer := WriterDone))
    case Receive(m) => p.(reader := Holding(m))
    case ReadFails => StopReading(p)
    case Dispatch => Dispatched(p, p.reader.held)
    case Deliver =>
      if p.calls.tickets[p.reader.call].slot.Some? then StopReading(p)
      else p.(reader := Reading, calls := p.calls.Offer(p.reader.call, p.reader.reply))
    case Spawn => p.(reader := Reading, handlers := p.handlers.Move(p.reader.worker, Running))
    case Close => Shut(p)
    case CloseStream => p.(stage := StreamClosed)
    case Sweep => p.(stage := Swept, handlers := p.handlers.FireAll())
  }

  function Next(p: PeerState, e: Event): PeerState
    requires Shaped(p) && Enabled(p, e)
  {
    match e
    case Issue(verb, deadline, raw) => p.(calls := p.calls.Draw(p.instance, p.prefix, verb, deadline, raw))
    case Calling(k, c) => CallNext(p, k, c)
    case Working(h, w) => WorkNext(p, h, w)
    case Wiring(w) => WireNext(p, w)
  }

  ghost predicate May(p: PeerState, e: Event) { Shaped(p) && Enabled(p, e) }

  /** q is what the peer is after step e. */
  ghost predicate Follows(p: PeerState, e: Event, q: PeerState) { Shaped(p) && Enabled(p, e) && q == Next(p, e) }

  lemma ShapedCall(p: PeerState, k: nat, c: CallEvent)
    requires Shaped(p) && CallEnabled(p, k, c)
    ensures Shaped(CallNext(p, k, c))
  {
    var q := CallNext(p, k, c);
    assert q.calls.Shaped() && |q.calls.tickets| == |p.calls.tickets|;
  }

  lemma ShapedWork(p: PeerState, h: nat, w: WorkEvent)
    requires Shaped(p) && WorkEnabled(p, h, w)
    ensures Shaped(WorkNext(p, h, w))
  {
    hide ResponseMessage;
    var q := WorkNext(p, h, w);
    assert q.handlers.Shaped() && |q.handlers.jobs| == |p.handlers.jobs|;
  }

  lemma ShapedWire(p: PeerState, e: WireEvent)
    requires Shaped(p) && WireEnabled(p, e)
    ensures Shaped(WireNext(p, e))
  {
    hide WellFormed;
    var q := WireNext(p, e);
    assert q.calls.Shaped() && |q.calls.tickets| == |p.calls.tickets|;
    assert q.handlers.Shaped() && |q.handlers.jobs| >= |p.handlers.jobs|;
  }

  lemma ShapedNext(p: PeerState, e: Event)
    requires Shaped(p) && Enabled(p, e)
    ensures Shaped(Next(p, e))
  {
    hide CallEnabled, CallNext, WorkEnabled, WorkNext, WireEnabled, WireNext, CallId, RequestMessage;
    match e
    case Issue(_, _, _) =>
    case Calling(k, c) => ShapedCall(p, k, c);
    case Working(h, w) => ShapedWork(p, h, w);
    case Wiring(w) => ShapedWire(p, w);
  }
}
