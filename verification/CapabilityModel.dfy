/**
 The capability server as a state machine: one dispatcher reading requests, one worker per accepted
 execute, a semaphore, a registry of cancel functions, and the log of response frames in the order in
 which the write lock let them out. A response is written whole under that lock, or not completed.
 */
module CapabilityModel {

  const PROTOCOL_VERSION := "1.0"

  /** Request parameters after decoding; only a cancel's target matters here. */
  datatype Params = Undecodable | Decoded(target: string)
  datatype Request = Request(version: string, id: string, verb: string, deadline: nat, params: Params)

  datatype Greeting = Declined | Offered(version: string, maxConcurrency: int)

  /** What a response says. `asOf` counts the executes accepted before a cancel was looked up. */
  datatype Body =
    | GreetingBody(ok: bool)
    | HealthBody(ok: bool)
    | ExecuteBody(ok: bool)
    | CancelBody(target: string, accepted: bool, asOf: nat)
    | ShutdownBody(ok: bool)
  datatype Response = Response(id: string, body: Body)

  datatype After = Continue | Greet | Stop
  datatype Dispatcher =
    | Reading
    | Handshaking(id: string) | Probing(id: string)                  // in the handler
    | Acquiring(id: string) | Registering(id: string)                // before and after taking a token
    | Cancelling(id: string, target: string)
    | Sweeping(id: string) | Draining(id: string) | ShuttingDown(id: string)
    | Answering(response: Response, after: After)
    | Ending | Joining | Ended                                       // the deferred cancelAll and Wait

  datatype Phase = Executing | Responding(ok: bool) | Removing | Releasing | Finishing | Gone

  datatype Worker = Worker(id: string, phase: Phase)

  datatype Server = Server(
    dispatcher: Dispatcher, handshaken: bool, seen: set<string>, limit: nat, tokens: nat,
    active: map<string, nat>, workers: seq<Worker>, cancelled: set<nat>,
    out: seq<Response>, lost: nat, shutdown: set<string>)

  const FRESH := Server(Reading, false, {}, 1, 0, map[], [], {}, [], 0, {})

  /** Steps of the dispatch loop and its deferred end. */
  datatype LoopEvent =
    | Receive(request: Request) | ReadFails
    | Greeted(greeting: Greeting) | Probed(ok: bool)
    | Acquire | GiveUp | Enroll | LookUp
    | SweepActive | Drained | ShutDown(ok: bool)
    | Answer(written: bool)
    | EndSweep | Join

  /** Steps of a worker goroutine. */
  datatype WorkEvent = Executed(ok: bool) | Respond(written: bool) | Remove | Release | Done

  datatype Event = Looping(l: LoopEvent) | Working(w: nat, e: WorkEvent)

  predicate AllGone(ws: seq<Worker>) { forall w :: 0 <= w < |ws| ==> ws[w].phase == Gone }

  predicate LoopEnabled(s: Server, l: LoopEvent) {
    match l
    case Receive(_) => s.dispatcher.Reading?
    case ReadFails => s.dispatcher.Reading?
    case Greeted(_) => s.dispatcher.Handshaking?
    case Probed(_) => s.dispatcher.Probing?
    case Acquire => s.dispatcher.Acquiring? && s.tokens < s.limit
    case GiveUp => s.dispatcher.Acquiring?
    case Enroll => s.dispatcher.Registering?
    case LookUp => s.dispatcher.Cancelling?
    case SweepActive => s.dispatcher.Sweeping?
    case Drained => s.dispatcher.Draining? && AllGone(s.workers)
    case ShutDown(_) => s.dispatcher.ShuttingDown?
    case Answer(_) => s.dispatcher.Answering?
    case EndSweep => s.dispatcher.Ending?
    case Join => s.dispatcher.Joining? && AllGone(s.workers)
  }

  predicate WorkEnabled(s: Server, w: nat, e: WorkEvent) {
    w < |s.workers| &&
    match e
    case Executed(_) => s.workers[w].phase.Executing?
    case Respond(_) => s.workers[w].phase.Responding?
    case Remove => s.workers[w].phase.Removing?
    case Release => s.workers[w].phase.Releasing? && s.tokens > 0
    case Done => s.workers[w].phase.Finishing?
  }

  predicate Enabled(s: Server, e: Event) {
    match e
    case Looping(l) => LoopEnabled(s, l)
    case Working(w, e) => WorkEnabled(s, w, e)
  }

  /** Where a request that passed the envelope and identifier checks leads. */
  function Routed(handshaken: bool, r: Request): Dispatcher {
    if r.verb != "handshake" && !handshaken then Ending
    else if r.verb == "handshake" then
      if handshaken || r.params.Undecodable? then Ending else Handshaking(r.id)
    else if r.verb == "health" then Probing(r.id)
    else if r.verb == "execute" then
      if r.params.Undecodable? then Ending else Acquiring(r.id)
    else if r.verb == "cancel" then
      if r.params.Undecodable? then Ending else Cancelling(r.id, r.params.target)
    else if r.verb == "shutdown" then Sweeping(r.id)
    else Ending
  }

  predicate WellFormed(r: Request) {
    r.version == PROTOCOL_VERSION && r.id != "" && r.verb != "" && r.deadline != 0
  }

  function Received(s: Server, r: Request): Server {
    if !WellFormed(r) || r.id in s.seen then s.(dispatcher := Ending)
    else
      var next := Routed(s.handshaken, r);
      s.(seen := s.seen + {r.id}, dispatcher := next,
         shutdown := if next.Sweeping? then s.shutdown + {r.id} else s.shutdown)
  }

  function Write(s: Server, r: Response, written: bool): Server {
    if written then s.(out := s.out + [r]) else s.(lost := s.lost + 1)
  }

  function CancelAll(s: Server): Server { s.(cancelled := s.cancelled + s.active.Values) }

  function Less(n: nat): nat { if n > 0 then n - 1 else 0 }

  function LoopNext(s: Server, l: LoopEvent): Server
    requires LoopEnabled(s, l)
  {
    match l
    case Receive(r) => Received(s, r)
    case ReadFails => s.(dispatcher := Ending)
    case Greeted(Declined) => s.(dispatcher := Answering(Response(s.dispatcher.id, GreetingBody(false)), Stop))
    case Greeted(Offered(version, n)) =>
      if version != PROTOCOL_VERSION || n < 1 || n > 64 then s.(dispatcher := Ending)
      else s.(limit := n, tokens := 0, dispatcher := Answering(Response(s.dispatcher.id, GreetingBody(true)), Greet))
    case Probed(ok) => s.(dispatcher := Answering(Response(s.dispatcher.id, HealthBody(ok)), Continue))
    case Acquire => s.(tokens := s.tokens + 1, dispatcher := Registering(s.dispatcher.id))
    case GiveUp => s.(dispatcher := Ending)
    case Enroll =>
      var id := s.dispatcher.id;
      if id in s.active then s.(tokens := Less(s.tokens), dispatcher := Ending)
      else s.(active := s.active[id := |s.workers|], workers := s.workers + [Worker(id, Executing)],
               dispatcher := Reading)
    case LookUp =>
      var (id, target) := (s.dispatcher.id, s.dispatcher.target);
      s.(cancelled := if target in s.active then s.cancelled + {s.active[target]} else s.cancelled,
         dispatcher := Answering(Response(id, CancelBody(target, target in s.active, |s.workers|)), Continue))
    case SweepActive => CancelAll(s).(dispatcher := Draining(s.dispatcher.id))
    case Drained => s.(dispatcher := ShuttingDown(s.dispatcher.id))
    case ShutDown(ok) => s.(dispatcher := Answering(Response(s.dispatcher.id, ShutdownBody(ok)), Stop))
    case Answer(written) =>
      var after := s.dispatcher.after;
      var t := Write(s, s.dispatcher.response, written);
      if !written || after.Stop? then t.(dispatcher := Ending)
      else t.(handshaken := s.handshaken || after.Greet?, dispatcher := Reading)
    case EndSweep => CancelAll(s).(dispatcher := Joining)
    case Join => s.(dispatcher := Ended)
  }

  function Advance(ws: seq<Worker>, w: nat, phase: Phase): seq<Worker>
    requires w < |ws|
  {
    ws[w := ws[w].(phase := phase)]
  }

  function PhaseAfter(e: WorkEvent): Phase {
    match e
    case Executed(ok) => Responding(ok)
    case Respond(_) => Removing
    case Remove => Releasing
    case Release => Finishing
    case Done => Gone
  }

  function WorkNext(s: Server, w: nat, e: WorkEvent): Server
    requires WorkEnabled(s, w, e)
  {
    var t := s.(workers := Advance(s.workers, w, PhaseAfter(e)));
    match e
    case Executed(_) => t
    case Respond(written) => Write(t, Response(s.workers[w].id, ExecuteBody(s.workers[w].phase.ok)), written)
    case Remove =>
      var id := s.workers[w].id;
      t.(active := s.active - {id}, cancelled := if id in s.active then s.cancelled + {s.active[id]} else s.cancelled)
    case Release => t.(tokens := Less(s.tokens))
    case Done => t
  }

  function Next(s: Server, e: Event): Server
    requires Enabled(s, e)
  {
    match e
    case Looping(l) => LoopNext(s, l)
    case Working(w, e) => WorkNext(s, w, e)
  }
}
