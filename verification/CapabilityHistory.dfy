/**
 What the capability server does for each request, over the events of a run: every response answers a request that
 was received, with the body of its method and what its handler reported; and what cancels an execute.
 */
module CapabilityHistory {
  import opened CapabilityModel
  import opened CapabilityRuns

  // ---------- requests and reports ----------

  /** The e-th event receives a request of this identifier and method. */
  ghost predicate AsksAt(r: Run, e: nat, id: string, verb: string) {
    && e < |r.events| && r.events[e].Looping? && r.events[e].l.Receive?
    && r.events[e].l.request.id == id && r.events[e].l.request.verb == verb
  }

  ghost predicate Asked(r: Run, j: nat, id: string, verb: string) { exists e: nat :: e < j && AsksAt(r, e, id, verb) }

  ghost predicate CancelAt(r: Run, e: nat, id: string, target: string) {
    AsksAt(r, e, id, "cancel") && r.events[e].l.request.params == Decoded(target)
  }

  ghost predicate AskedCancel(r: Run, j: nat, id: string, target: string) {
    exists e: nat :: e < j && CancelAt(r, e, id, target)
  }

  predicate ProperOffer(g: Greeting)
    requires g.Offered?
  {
    g.version == "1.0" && 1 <= g.maxConcurrency <= 64
  }

  /** The e-th event is the return of the handler that works on this identifier, and it reports ok. */
  ghost predicate GreetsAt(r: Run, e: nat, id: string, ok: bool) {
    && e < |r.events| && e < |r.states| && r.states[e].dispatcher == Handshaking(id)
    && r.events[e].Looping? && r.events[e].l.Greeted?
    && (ok ==> r.events[e].l.greeting.Offered? && ProperOffer(r.events[e].l.greeting))
    && (!ok ==> r.events[e].l.greeting.Declined?)
  }

  ghost predicate ProbesAt(r: Run, e: nat, id: string, ok: bool) {
    && e < |r.events| && e < |r.states| && r.states[e].dispatcher == Probing(id) && r.events[e] == Looping(Probed(ok))
  }

  ghost predicate ShutsAt(r: Run, e: nat, id: string, ok: bool) {
    && e < |r.events| && e < |r.states|
    && r.states[e].dispatcher == ShuttingDown(id) && r.events[e] == Looping(ShutDown(ok))
  }

  ghost predicate ExecutesAt(r: Run, e: nat, id: string, ok: bool) {
    && e < |r.events| && e < |r.states| && r.events[e].Working? && r.events[e].e == Executed(ok)
    && r.events[e].w < |r.states[e].workers| && r.states[e].workers[r.events[e].w].id == id
  }

  ghost predicate ReportedExecute(r: Run, j: nat, id: string, ok: bool) {
    exists e: nat :: e < j && ExecutesAt(r, e, id, ok)
  }

  /** A response answers a request received before, with the body of its method; and what it says is what the handler
      of that method reported for that identifier. */
  ghost predicate ResponseTold(r: Run, j: nat, response: Response) {
    match response.body
    case GreetingBody(ok) =>
      Asked(r, j, response.id, "handshake") && exists e: nat :: e < j && GreetsAt(r, e, response.id, ok)
    case HealthBody(ok) =>
      Asked(r, j, response.id, "health") && exists e: nat :: e < j && ProbesAt(r, e, response.id, ok)
    case ExecuteBody(ok) => Asked(r, j, response.id, "execute") && ReportedExecute(r, j, response.id, ok)
    case CancelBody(target, _, _) => AskedCancel(r, j, response.id, target)
    case ShutdownBody(ok) =>
      Asked(r, j, response.id, "shutdown") && exists e: nat :: e < j && ShutsAt(r, e, response.id, ok)
  }

  ghost predicate DispatcherTold(r: Run, j: nat, d: Dispatcher) {
    match d
    case Handshaking(id) => Asked(r, j, id, "handshake")
    case Probing(id) => Asked(r, j, id, "health")
    case Acquiring(id) => Asked(r, j, id, "execute")
    case Registering(id) => Asked(r, j, id, "execute")
    case Cancelling(id, target) => AskedCancel(r, j, id, target)
    case Sweeping(id) => Asked(r, j, id, "shutdown")
    case Draining(id) => Asked(r, j, id, "shutdown")
    case ShuttingDown(id) => Asked(r, j, id, "shutdown")
    case Answering(response, _) => ResponseTold(r, j, response)
    case _ => true
  }

  ghost predicate WorkersTold(r: Run, j: nat, ws: seq<Worker>) {
    forall w :: 0 <= w < |ws| ==>
      Asked(r, j, ws[w].id, "execute") && (ws[w].phase.Responding? ==> ReportedExecute(r, j, ws[w].id, ws[w].phase.ok))
  }

  ghost predicate LogTold(r: Run, j: nat, out: seq<Response>) {
    forall i :: 0 <= i < |out| ==> ResponseTold(r, j, out[i])
  }

  ghost predicate Told(r: Run, j: nat)
    requires j < |r.states|
  {
    && DispatcherTold(r, j, r.states[j].dispatcher) && WorkersTold(r, j, r.states[j].workers)
    && LogTold(r, j, r.states[j].out)
  }

  // ---------- the past stays ----------

  lemma ResponseStays(r: Run, j: nat, response: Response)
    requires ResponseTold(r, j, response)
    ensures ResponseTold(r, j + 1, response)
  {
    hide AsksAt, CancelAt, GreetsAt, ProbesAt, ShutsAt, ExecutesAt;
  }

  lemma DispatcherStays(r: Run, j: nat, d: Dispatcher)
    requires DispatcherTold(r, j, d)
    ensures DispatcherTold(r, j + 1, d)
  {
    hide AsksAt, CancelAt, ResponseTold;
    if d.Answering? {
      ResponseStays(r, j, d.response);
    }
  }

  lemma WorkersStay(r: Run, j: nat, ws: seq<Worker>)
    requires WorkersTold(r, j, ws)
    ensures WorkersTold(r, j + 1, ws)
  {
    hide AsksAt, ExecutesAt;
  }

  lemma LogStays(r: Run, j: nat, out: seq<Response>)
    requires LogTold(r, j, out)
    ensures LogTold(r, j + 1, out)
  {
    hide ResponseTold;
    forall i | 0 <= i < |out| ensures ResponseTold(r, j + 1, out[i]) { ResponseStays(r, j, out[i]); }
  }

  // ---------- one step ----------

  lemma ReceiveTold(r: Run, j: nat, q: Request)
    requires j < |r.events| && r.events[j] == Looping(Receive(q)) && j + 1 < |r.states|
    requires r.states[j].dispatcher.Reading? && r.states[j + 1] == Received(r.states[j], q)
    ensures DispatcherTold(r, j + 1, r.states[j + 1].dispatcher)
  {
    assert AsksAt(r, j, q.id, q.verb);
    assert q.verb == "cancel" && q.params.Decoded? ==> CancelAt(r, j, q.id, q.params.target);
    hide AsksAt, CancelAt, ResponseTold;
  }

  lemma ReportTold(r: Run, j: nat, l: LoopEvent)
    requires j < |r.events| && j + 1 < |r.states| && r.events[j] == Looping(l) && LoopEnabled(r.states[j], l)
    requires r.states[j + 1] == LoopNext(r.states[j], l) && (l.Greeted? || l.Probed? || l.ShutDown?)
    requires DispatcherTold(r, j + 1, r.states[j].dispatcher)
    ensures DispatcherTold(r, j + 1, r.states[j + 1].dispatcher)
  {
    var d := r.states[j].dispatcher;
    if l.Probed? {
      assert ProbesAt(r, j, d.id, l.ok);
    } else if l.ShutDown? {
      assert ShutsAt(r, j, d.id, l.ok);
    } else if l.greeting.Declined? {
      assert GreetsAt(r, j, d.id, false);
    } else if r.states[j + 1].dispatcher.Answering? {
      assert GreetsAt(r, j, d.id, true);
    }
    hide AsksAt, CancelAt;
  }

  lemma LoopTold(r: Run, j: nat, l: LoopEvent)
    requires j < |r.events| && j + 1 < |r.states| && r.events[j] == Looping(l) && LoopEnabled(r.states[j], l)
    requires r.states[j + 1] == LoopNext(r.states[j], l) && Told(r, j)
    ensures Told(r, j + 1)
  {
    var s, t := r.states[j], r.states[j + 1];
    DispatcherStays(r, j, s.dispatcher);
    WorkersStay(r, j, s.workers);
    LogStays(r, j, s.out);
    hide ResponseTold, Asked, AskedCancel, ReportedExecute;
    if l.Receive? {
      ReceiveTold(r, j, l.request);
      hide DispatcherTold, Received;
    } else if l.Greeted? || l.Probed? || l.ShutDown? {
      ReportTold(r, j, l);
      hide DispatcherTold;
    }
  }

  lemma WorkTold(r: Run, j: nat, w: nat, e: WorkEvent)
    requires j < |r.events| && j + 1 < |r.states| && r.events[j] == Working(w, e) && WorkEnabled(r.states[j], w, e)
    requires r.states[j + 1] == WorkNext(r.states[j], w, e) && Told(r, j)
    ensures Told(r, j + 1)
  {
    var s := r.states[j];
    DispatcherStays(r, j, s.dispatcher);
    WorkersStay(r, j, s.workers);
    LogStays(r, j, s.out);
    if e.Executed? {
      assert ExecutesAt(r, j, s.workers[w].id, e.ok);
    }
    hide Asked, AskedCancel, ExecutesAt, DispatcherTold;
  }

  /** In every run: each response in the log, and the one about to be answered, answers a request received before
      with the body of its method, and says what that method's handler reported; each worker executes a received
      "execute"; and the dispatcher is at what the method of its request asks for. */
  lemma {:induction false} EverythingTold(r: Run, j: nat)
    requires IsRun(r) && j <= |r.events|
    ensures Told(r, j)
  {
    if j > 0 {
      EverythingTold(r, j - 1);
      assert Enabled(r.states[j - 1], r.events[j - 1]) && r.states[j] == Next(r.states[j - 1], r.events[j - 1]);
      hide Told, LoopNext, WorkNext, IsRun;
      match r.events[j - 1]
      case Looping(l) => LoopTold(r, j - 1, l);
      case Working(w, e) => WorkTold(r, j - 1, w, e);
    }
  }

  // ---------- what a request leads to ----------

  /** What ends `Serve` on arrival: a foreign or incomplete envelope, a reused identifier, anything before the
      handshake, a second handshake, parameters that do not decode, an unknown method. */
  predicate Rejected(s: Server, q: Request) {
    || q.version != "1.0" || q.id == "" || q.verb == "" || q.deadline == 0 || q.id in s.seen
    || (q.verb != "handshake" && !s.handshaken)
    || (q.verb == "handshake" && s.handshaken)
    || (q.verb in {"handshake", "execute", "cancel"} && q.params.Undecodable?)
    || q.verb !in {"handshake", "health", "execute", "cancel", "shutdown"}
  }

  /** A request in every case: a rejected one ends `Serve` and starts nothing; any other is noted, and the dispatcher
      turns to what its method asks for. */
  lemma RequestDecides(s: Server, q: Request)
    requires s.dispatcher.Reading?
    ensures var t := LoopNext(s, Receive(q));
            && t == s.(dispatcher := t.dispatcher, seen := t.seen, shutdown := t.shutdown)
            && t.seen == (if q.version != "1.0" || q.id == "" || q.verb == "" || q.deadline == 0 then s.seen
                          else s.seen + {q.id})
            && (Rejected(s, q) ==> t.dispatcher == Ending && t.shutdown == s.shutdown)
            && (!Rejected(s, q) ==>
                  && t.shutdown == (if q.verb == "shutdown" then s.shutdown + {q.id} else s.shutdown)
                  && (q.verb == "handshake" ==> t.dispatcher == Handshaking(q.id))
                  && (q.verb == "health" ==> t.dispatcher == Probing(q.id))
                  && (q.verb == "execute" ==> t.dispatcher == Acquiring(q.id))
                  && (q.verb == "cancel" ==> t.dispatcher == Cancelling(q.id, q.params.target))
                  && (q.verb == "shutdown" ==> t.dispatcher == Sweeping(q.id)))
  {
  }

  /** The e-th event receives a shutdown that is not rejected. */
  ghost predicate ShutdownAt(r: Run, e: nat, id: string) {
    AsksAt(r, e, id, "shutdown") && e < |r.states| && !Rejected(r.states[e], r.events[e].l.request)
  }

  lemma ShutdownStep(r: Run, j: nat, id: string)
    requires IsRun(r) && j < |r.events|
    ensures id in r.states[j + 1].shutdown <==> id in r.states[j].shutdown || ShutdownAt(r, j, id)
  {
    var s, e := r.states[j], r.events[j];
    assert Enabled(s, e) && r.states[j + 1] == Next(s, e);
    if e.Looping? && e.l.Receive? {
      RequestDecides(s, e.l.request);
      hide LoopNext, Rejected;
    }
  }

  /** In every run the shutdowns on record are exactly the shutdown requests received and not rejected. */
  lemma {:induction false} ShutdownsAre(r: Run, j: nat, id: string)
    requires IsRun(r) && j <= |r.events|
    ensures id in r.states[j].shutdown <==> exists e: nat :: e < j && ShutdownAt(r, e, id)
  {
    hide Enabled, Next, ShutdownAt;
    if j > 0 {
      ShutdownsAre(r, j - 1, id);
      ShutdownStep(r, j - 1, id);
    }
  }

  // ---------- what cancels an execute ----------

  /** The e-th event cancels the w-th execute: a cancel request that names it while it is registered, a sweep while it
      is registered, or its own clean-up. */
  ghost predicate CancelsAt(r: Run, e: nat, w: nat) {
    && e < |r.events| && e < |r.states| && w < |r.states[e].workers|
    && (|| (r.events[e] == Looping(LookUp) && r.states[e].dispatcher.Cancelling?
            && r.states[e].dispatcher.target == r.states[e].workers[w].id && Registered(r.states[e].workers[w].phase))
        || ((r.events[e] == Looping(SweepActive) || r.events[e] == Looping(EndSweep))
            && Registered(r.states[e].workers[w].phase))
        || r.events[e] == Working(w, Remove))
  }

  lemma RegisteredIs(active: map<string, nat>, ws: seq<Worker>, id: string, w: nat)
    requires Registry(active, ws) && w < |ws|
    ensures id in active && active[id] == w <==> Registered(ws[w].phase) && ws[w].id == id
    ensures w in active.Values <==> Registered(ws[w].phase)
  {
    if Registered(ws[w].phase) {
      assert active[ws[w].id] in active.Values;
    }
  }

  lemma CancelStep(s: Server, e: Event, w: nat, target: string)
    requires Enabled(s, e) && Registry(s.active, s.workers) && w < |s.workers|
    requires s.dispatcher.Cancelling? ==> target == s.dispatcher.target
    ensures w in Next(s, e).cancelled <==>
            || w in s.cancelled
            || (e == Looping(LookUp) && target == s.workers[w].id && Registered(s.workers[w].phase))
            || ((e == Looping(SweepActive) || e == Looping(EndSweep)) && Registered(s.workers[w].phase))
            || e == Working(w, Remove)
  {
    RegisteredIs(s.active, s.workers, target, w);
    if e.Working? && e.e.Remove? {
      RegisteredIs(s.active, s.workers, s.workers[e.w].id, e.w);
    }
    hide Registry, Routed, WellFormed;
  }

  lemma CancelledExist(s: Server, e: Event)
    requires Enabled(s, e) && Registry(s.active, s.workers) && forall w :: w in s.cancelled ==> w < |s.workers|
    ensures forall w :: w in Next(s, e).cancelled ==> w < |s.workers| <= |Next(s, e).workers|
  {
    hide Routed, WellFormed;
  }

  lemma {:induction false} CancelledBound(r: Run, j: nat)
    requires IsRun(r) && j <= |r.events|
    ensures forall w :: w in r.states[j].cancelled ==> w < |r.states[j].workers|
  {
    if j > 0 {
      CancelledBound(r, j - 1);
      RunInv(r, j - 1);
      hide WorkersDistinct, Registry, CurrentIsNew, LogDistinct, LogMatches, Metered, GreetsFirst;
      hide CancelsTruthful, SweptAll, ClosesDown, Enabled, Next;
      CancelledExist(r.states[j - 1], r.events[j - 1]);
    }
  }

  lemma CancelsAtIs(r: Run, j: nat, w: nat)
    requires IsRun(r) && j < |r.events|
    ensures w in r.states[j + 1].cancelled <==> w in r.states[j].cancelled || CancelsAt(r, j, w)
  {
    RunInv(r, j);
    CancelledBound(r, j);
    hide WorkersDistinct, Registry, CurrentIsNew, LogDistinct, LogMatches, Metered, GreetsFirst;
    hide CancelsTruthful, SweptAll, ClosesDown, Next;
    var s, e := r.states[j], r.events[j];
    if w < |s.workers| {
      CancelStep(s, e, w, if s.dispatcher.Cancelling? then s.dispatcher.target else "");
    } else {
      CancelledExist(s, e);
    }
  }

  /** In every run the context of an execute has been cancelled exactly by a cancel naming it while it was registered,
      by a sweep while it was registered, or by its own clean-up. */
  lemma {:induction false} CancelledIff(r: Run, j: nat, w: nat)
    requires IsRun(r) && j <= |r.events|
    ensures w in r.states[j].cancelled <==> exists e: nat :: e < j && CancelsAt(r, e, w)
  {
    hide Enabled, Next, CancelsAt;
    if j > 0 {
      CancelledIff(r, j - 1, w);
      CancelsAtIs(r, j - 1, w);
    }
  }

  /** An accepted cancel names an execute accepted before it, whose context has been cancelled. */
  ghost predicate AcceptedFires(body: Body, ws: seq<Worker>, cancelled: set<nat>) {
    body.CancelBody? && body.accepted ==>
      exists w: nat :: w < body.asOf && w < |ws| && ws[w].id == body.target && w in cancelled
  }

  ghost predicate AllAcceptedFire(s: Server) {
    && (s.dispatcher.Answering? ==> AcceptedFires(s.dispatcher.response.body, s.workers, s.cancelled))
    && (forall i :: 0 <= i < |s.out| ==> AcceptedFires(s.out[i].body, s.workers, s.cancelled))
  }

  ghost predicate Growing(s: Server, t: Server) {
    && s.cancelled <= t.cancelled && |s.workers| <= |t.workers|
    && (forall w :: 0 <= w < |s.workers| ==> t.workers[w].id == s.workers[w].id)
  }

  lemma FiresOn(body: Body, s: Server, t: Server)
    requires AcceptedFires(body, s.workers, s.cancelled) && Growing(s, t)
    ensures AcceptedFires(body, t.workers, t.cancelled)
  {
  }

  lemma LoopGrows(s: Server, l: LoopEvent)
    requires LoopEnabled(s, l)
    ensures Growing(s, LoopNext(s, l))
  {
    if l.Receive? {
      hide Received;
      assert Received(s, l.request) == s.(dispatcher := Received(s, l.request).dispatcher,
                                          seen := Received(s, l.request).seen,
                                          shutdown := Received(s, l.request).shutdown)
      by { RequestDecides(s, l.request); }
    }
    hide Routed, WellFormed;
  }

  lemma WorkGrows(s: Server, w: nat, e: WorkEvent)
    requires WorkEnabled(s, w, e)
    ensures Growing(s, WorkNext(s, w, e))
  {
  }

  lemma Grows(s: Server, e: Event)
    requires Enabled(s, e)
    ensures Growing(s, Next(s, e))
  {
    hide Growing, LoopNext, WorkNext, LoopEnabled, WorkEnabled;
    match e
    case Looping(l) => LoopGrows(s, l);
    case Working(w, e) => WorkGrows(s, w, e);
  }

  lemma LookUpFires(s: Server)
    requires s.dispatcher.Cancelling? && Registry(s.active, s.workers)
    ensures var t := LoopNext(s, LookUp);
            && t.dispatcher.Answering? && t.dispatcher.response.body.CancelBody?
            && AcceptedFires(t.dispatcher.response.body, t.workers, t.cancelled)
            && t.dispatcher.response.body.target == s.dispatcher.target
            && (t.dispatcher.response.body.accepted <==>
                  exists w: nat ::
                    w < |s.workers| && Registered(s.workers[w].phase) && s.workers[w].id == s.dispatcher.target)
  {
    var target := s.dispatcher.target;
    if target in s.active {
      var w := s.active[target];
      assert s.workers[w].id == target && Registered(s.workers[w].phase);
    }
  }

  /** What a step adds: at most one response to the log, the one about to be answered or an execute's; and only a
      lookup turns to answering a cancel. */
  ghost predicate Answers(s: Server, e: Event, t: Server) {
    && (t.out == s.out || (s.dispatcher.Answering? && t.out == s.out + [s.dispatcher.response])
        || (|t.out| == |s.out| + 1 && t.out[..|s.out|] == s.out && t.out[|s.out|].body.ExecuteBody?))
    && (t.dispatcher.Answering? && t.dispatcher.response.body.CancelBody? && t.dispatcher != s.dispatcher ==>
          e == Looping(LookUp))
  }

  lemma StepAnswers(s: Server, e: Event)
    requires Enabled(s, e)
    ensures Answers(s, e, Next(s, e))
  {
    if e.Looping? && e.l.Receive? {
      RequestDecides(s, e.l.request);
    }
    hide Routed, WellFormed, Rejected;
  }

  lemma FiresStep(s: Server, e: Event)
    requires Enabled(s, e) && Registry(s.active, s.workers) && AllAcceptedFire(s)
    ensures AllAcceptedFire(Next(s, e))
  {
    var t := Next(s, e);
    Grows(s, e);
    StepAnswers(s, e);
    if e == Looping(LookUp) {
      LookUpFires(s);
    }
    hide Next, Enabled, Growing, Registry;
    forall i | 0 <= i < |s.out| ensures AcceptedFires(s.out[i].body, t.workers, t.cancelled) {
      FiresOn(s.out[i].body, s, t);
    }
    if s.dispatcher.Answering? {
      FiresOn(s.dispatcher.response.body, s, t);
    }
  }

  /** In every run each accepted cancel, in the log or about to be answered, did cancel: the execute of that
      identifier was accepted before, and its context is cancelled. */
  lemma {:induction false} AcceptedCancel(r: Run, j: nat)
    requires IsRun(r) && j <= |r.events|
    ensures AllAcceptedFire(r.states[j])
  {
    if j > 0 {
      AcceptedCancel(r, j - 1);
      RunInv(r, j - 1);
      hide WorkersDistinct, Registry, CurrentIsNew, LogDistinct, LogMatches, Metered, GreetsFirst;
      hide CancelsTruthful, SweptAll, ClosesDown, Enabled, Next, AllAcceptedFire;
      FiresStep(r.states[j - 1], r.events[j - 1]);
    }
  }

  /** And a lookup is answered accepted exactly when an accepted execute of that identifier is still registered. */
  lemma LookUpFinds(s: Server)
    requires Reachable(s) && s.dispatcher.Cancelling?
    ensures var body := LoopNext(s, LookUp).dispatcher.response.body;
            && body.CancelBody? && body.target == s.dispatcher.target && body.asOf == |s.workers|
            && (body.accepted <==>
                  exists w: nat ::
                    w < |s.workers| && Registered(s.workers[w].phase) && s.workers[w].id == s.dispatcher.target)
  {
    hide Reachable;
    ReachableInv(s);
    LookUpFires(s);
    hide Registry, Inv;
  }
}
