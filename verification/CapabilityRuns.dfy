/** What the capability server keeps in every run, and what a shutdown leaves behind. */
module CapabilityRuns {
  import opened Basics
  import opened CapabilityModel

  predicate Registered(p: Phase) { p.Executing? || p.Responding? || p.Removing? }
  predicate Holds(p: Phase) { Registered(p) || p.Releasing? }
  predicate Answered(p: Phase) { !p.Executing? && !p.Responding? }

  // ---------- identifiers and the registry ----------

  /** Accepted executes have distinct identifiers, all of them seen. */
  ghost predicate WorkersDistinct(ws: seq<Worker>, seen: set<string>) {
    && (forall w :: 0 <= w < |ws| ==> ws[w].id in seen)
    && (forall v, w :: 0 <= v < w < |ws| ==> ws[v].id != ws[w].id)
  }

  ghost predicate Registry(active: map<string, nat>, ws: seq<Worker>) {
    && (forall id :: id in active ==> active[id] < |ws| && ws[active[id]].id == id && Registered(ws[active[id]].phase))
    && (forall w :: 0 <= w < |ws| && Registered(ws[w].phase) ==> ws[w].id in active && active[ws[w].id] == w)
  }

  function OutIds(out: seq<Response>): set<string> { set i | 0 <= i < |out| :: out[i].id }

  /** The request the dispatcher is working on, if any. */
  function Current(d: Dispatcher): set<string> {
    match d
    case Answering(r, _) => {r.id}
    case Reading => {}
    case Ending => {}
    case Joining => {}
    case Ended => {}
    case _ => {d.id}
  }

  /** The request in hand was seen, is not an execute accepted earlier, and has no response yet. */
  ghost predicate CurrentIsNew(d: Dispatcher, ws: seq<Worker>, out: seq<Response>, seen: set<string>) {
    forall id :: id in Current(d) ==> id in seen && id !in OutIds(out) && forall w :: 0 <= w < |ws| ==> ws[w].id != id
  }

  ghost predicate LogDistinct(out: seq<Response>, seen: set<string>) {
    && (forall i :: 0 <= i < |out| ==> out[i].id in seen)
    && (forall i, j :: 0 <= i < j < |out| ==> out[i].id != out[j].id)
  }

  /** An execute has its response in the log exactly when its `respond` has returned - if none was lost. */
  ghost predicate LogMatches(out: seq<Response>, ws: seq<Worker>, lost: nat) {
    && (forall i, w :: 0 <= i < |out| && 0 <= w < |ws| && out[i].id == ws[w].id ==>
          Answered(ws[w].phase) && out[i].body.ExecuteBody?)
    && (lost == 0 ==> forall w :: 0 <= w < |ws| && Answered(ws[w].phase) ==> ws[w].id in OutIds(out))
  }

  // ---------- the semaphore ----------

  ghost function Holders(ws: seq<Worker>): set<nat> { set w: nat | w < |ws| && Holds(ws[w].phase) }

  ghost predicate Metered(s: Server) {
    && s.tokens == |Holders(s.workers)| + (if s.dispatcher.Registering? then 1 else 0)
    && s.tokens <= s.limit && 1 <= s.limit <= 64
  }

  predicate NeedsHandshake(d: Dispatcher) {
    d.Probing? || d.Acquiring? || d.Registering? || d.Cancelling? || d.Sweeping? || d.Draining? || d.ShuttingDown?
  }

  /** No execute is accepted before the handshake response is out. */
  ghost predicate GreetsFirst(s: Server) {
    && (!s.handshaken ==> s.workers == [] && !NeedsHandshake(s.dispatcher))
    && (s.dispatcher.Handshaking? ==> !s.handshaken)
  }

  // ---------- cancels and shutdown ----------

  /** A cancel that found nothing: every execute of that identifier accepted before has responded. */
  ghost predicate Truthful(body: Body, ws: seq<Worker>) {
    body.CancelBody? && !body.accepted ==>
      body.asOf <= |ws| && forall w :: 0 <= w < body.asOf && ws[w].id == body.target ==> Answered(ws[w].phase)
  }

  ghost predicate CancelsTruthful(d: Dispatcher, out: seq<Response>, ws: seq<Worker>) {
    && (d.Answering? ==> Truthful(d.response.body, ws))
    && (forall i :: 0 <= i < |out| ==> Truthful(out[i].body, ws))
  }

  predicate AfterSweep(d: Dispatcher) {
    d.Draining? || d.ShuttingDown? || d.Joining? || d.Ended? || (d.Answering? && d.response.body.ShutdownBody?)
  }

  /** After the sweep no execute runs with a live context. */
  ghost predicate SweptAll(d: Dispatcher, ws: seq<Worker>, cancelled: set<nat>) {
    AfterSweep(d) ==> forall w :: 0 <= w < |ws| && Registered(ws[w].phase) ==> w in cancelled
  }

  predicate Closing(d: Dispatcher) {
    || d.Sweeping? || d.Draining? || d.ShuttingDown? || d.Ending? || d.Joining? || d.Ended?
    || (d.Answering? && d.response.body.ShutdownBody? && d.after.Stop?)
  }

  /** Once a shutdown is accepted the dispatcher reads no more; from `Handler.Shutdown` on no worker is left;
      and at the end the shutdown response is the last in the log - if none was lost. */
  ghost predicate ClosesDown(d: Dispatcher, ws: seq<Worker>, out: seq<Response>, lost: nat, shutdown: set<string>) {
    && (shutdown != {} ==> Closing(d))
    && (d.Sweeping? || d.Draining? || d.ShuttingDown? ==> shutdown == {d.id})
    && (d.Answering? && d.response.body.ShutdownBody? ==> shutdown == {d.response.id} && d.after.Stop?)
    && (d.ShuttingDown? || d.Ended? || (d.Answering? && d.response.body.ShutdownBody?) ==> AllGone(ws))
    && (shutdown != {} && (d.Ending? || d.Joining? || d.Ended?) ==>
          && AllGone(ws)
          && (lost == 0 ==> out != [] && shutdown == {out[|out| - 1].id} && out[|out| - 1].body.ShutdownBody?))
  }

  ghost predicate Inv(s: Server) {
    && WorkersDistinct(s.workers, s.seen) && Registry(s.active, s.workers)
    && CurrentIsNew(s.dispatcher, s.workers, s.out, s.seen)
    && LogDistinct(s.out, s.seen) && LogMatches(s.out, s.workers, s.lost)
    && Metered(s) && GreetsFirst(s)
    && CancelsTruthful(s.dispatcher, s.out, s.workers)
    && SweptAll(s.dispatcher, s.workers, s.cancelled)
    && ClosesDown(s.dispatcher, s.workers, s.out, s.lost, s.shutdown)
  }

  lemma OutSnoc(out: seq<Response>, r: Response)
    ensures OutIds(out + [r]) == OutIds(out) + {r.id}
  {
    assert forall i :: 0 <= i < |out| ==> (out + [r])[i] == out[i];
    assert (out + [r])[|out|] == r;
    forall id | id in OutIds(out) + {r.id}
      ensures id in OutIds(out + [r])
    {
      if id in OutIds(out) {
        var i :| 0 <= i < |out| && out[i].id == id;
        assert (out + [r])[i].id == id;
      }
    }
  }

  // ---------- one worker advances ----------

  lemma HoldersAdvance(ws: seq<Worker>, w: nat, phase: Phase)
    requires w < |ws|
    ensures Holders(Advance(ws, w, phase)) == if Holds(phase) then Holders(ws) + {w} else Holders(ws) - {w}
    ensures w in Holders(ws) <==> Holds(ws[w].phase)
  {
  }

  lemma HoldersCount(ws: seq<Worker>, w: nat, phase: Phase)
    requires w < |ws|
    ensures |Holders(Advance(ws, w, phase))| + (if Holds(ws[w].phase) then 1 else 0)
         == |Holders(ws)| + (if Holds(phase) then 1 else 0)
    ensures Holds(ws[w].phase) ==> |Holders(ws)| > 0
  {
    HoldersAdvance(ws, w, phase);
    if Holds(ws[w].phase) {
      assert Holders(ws) + {w} == Holders(ws) && w in Holders(ws);
    } else {
      assert Holders(ws) - {w} == Holders(ws);
    }
  }

  lemma HoldersAppend(ws: seq<Worker>, id: string)
    ensures Holders(ws + [Worker(id, Executing)]) == Holders(ws) + {|ws|} && |ws| !in Holders(ws)
  {
  }

  lemma RegistryAdvance(active: map<string, nat>, ws: seq<Worker>, w: nat, phase: Phase)
    requires Registry(active, ws) && w < |ws|
    ensures Registered(phase) == Registered(ws[w].phase) ==> Registry(active, Advance(ws, w, phase))
    ensures Registered(ws[w].phase) && !Registered(phase) ==> Registry(active - {ws[w].id}, Advance(ws, w, phase))
  {
  }

  lemma WorkKeepsRegistry(s: Server, w: nat, e: WorkEvent)
    requires WorkEnabled(s, w, e) && Registry(s.active, s.workers)
    ensures Registry(WorkNext(s, w, e).active, WorkNext(s, w, e).workers)
  {
    hide Registry;
    RegistryAdvance(s.active, s.workers, w, PhaseAfter(e));
  }

  lemma WorkKeepsCurrent(s: Server, w: nat, e: WorkEvent)
    requires WorkEnabled(s, w, e) && WorkersDistinct(s.workers, s.seen)
    requires CurrentIsNew(s.dispatcher, s.workers, s.out, s.seen)
    ensures var t := WorkNext(s, w, e);
            WorkersDistinct(t.workers, t.seen) && CurrentIsNew(t.dispatcher, t.workers, t.out, t.seen)
  {
    if e.Respond? {
      OutSnoc(s.out, Response(s.workers[w].id, ExecuteBody(s.workers[w].phase.ok)));
    }
  }

  lemma WorkKeepsLog(s: Server, w: nat, e: WorkEvent)
    requires WorkEnabled(s, w, e)
    requires WorkersDistinct(s.workers, s.seen) && LogDistinct(s.out, s.seen) && LogMatches(s.out, s.workers, s.lost)
    ensures var t := WorkNext(s, w, e);
            LogDistinct(t.out, t.seen) && LogMatches(t.out, t.workers, t.lost)
  {
    if e.Respond? {
      OutSnoc(s.out, Response(s.workers[w].id, ExecuteBody(s.workers[w].phase.ok)));
    }
  }

  lemma WorkKeepsMeter(s: Server, w: nat, e: WorkEvent)
    requires WorkEnabled(s, w, e) && Metered(s) && GreetsFirst(s)
    ensures Metered(WorkNext(s, w, e)) && GreetsFirst(WorkNext(s, w, e))
  {
    HoldersCount(s.workers, w, PhaseAfter(e));
    hide Holders, Advance;
  }

  lemma WorkKeepsClosing(s: Server, w: nat, e: WorkEvent)
    requires WorkEnabled(s, w, e)
    requires CancelsTruthful(s.dispatcher, s.out, s.workers) && SweptAll(s.dispatcher, s.workers, s.cancelled)
    requires ClosesDown(s.dispatcher, s.workers, s.out, s.lost, s.shutdown)
    ensures var t := WorkNext(s, w, e);
            && CancelsTruthful(t.dispatcher, t.out, t.workers) && SweptAll(t.dispatcher, t.workers, t.cancelled)
            && ClosesDown(t.dispatcher, t.workers, t.out, t.lost, t.shutdown)
  {
    var t := WorkNext(s, w, e);
    assert !AllGone(s.workers);
    assert forall v :: 0 <= v < |s.workers| ==>
      && t.workers[v].id == s.workers[v].id && (Answered(s.workers[v].phase) ==> Answered(t.workers[v].phase));
  }

  // ---------- the dispatcher advances ----------

  lemma LoopKeepsWorkers(s: Server, l: LoopEvent)
    requires LoopEnabled(s, l) && WorkersDistinct(s.workers, s.seen)
    requires CurrentIsNew(s.dispatcher, s.workers, s.out, s.seen)
    ensures WorkersDistinct(LoopNext(s, l).workers, LoopNext(s, l).seen)
  {
    hide Routed, WellFormed;
  }

  lemma LoopKeepsRegistry(s: Server, l: LoopEvent)
    requires LoopEnabled(s, l) && Registry(s.active, s.workers)
    requires CurrentIsNew(s.dispatcher, s.workers, s.out, s.seen)
    ensures Registry(LoopNext(s, l).active, LoopNext(s, l).workers)
  {
    hide Routed, WellFormed, CurrentIsNew;
  }

  lemma RoutedCurrent(handshaken: bool, r: Request)
    ensures Current(Routed(handshaken, r)) <= {r.id}
  {
  }

  lemma ReceiveKeepsCurrent(s: Server, r: Request)
    requires WorkersDistinct(s.workers, s.seen) && LogDistinct(s.out, s.seen)
    ensures var t := Received(s, r);
            CurrentIsNew(t.dispatcher, s.workers, s.out, t.seen) && t.workers == s.workers && t.out == s.out
  {
    RoutedCurrent(s.handshaken, r);
    hide Routed, WellFormed;
  }

  lemma LoopKeepsCurrent(s: Server, l: LoopEvent)
    requires LoopEnabled(s, l) && WorkersDistinct(s.workers, s.seen) && LogDistinct(s.out, s.seen)
    requires CurrentIsNew(s.dispatcher, s.workers, s.out, s.seen)
    ensures CurrentIsNew(LoopNext(s, l).dispatcher, LoopNext(s, l).workers, LoopNext(s, l).out, LoopNext(s, l).seen)
  {
    if l.Receive? {
      hide *;
      ReceivedByLoop(s, l.request);
      ReceiveKeepsCurrent(s, l.request);
    } else {
      KeepsRequest(s, l);
      hide LoopNext, LoopEnabled, WorkersDistinct, LogDistinct, Current, OutIds;
    }
  }

  /** The dispatcher goes on with the request in hand, or is done with it. */
  lemma KeepsRequest(s: Server, l: LoopEvent)
    requires LoopEnabled(s, l) && !l.Receive?
    ensures var t := LoopNext(s, l);
            && t.seen == s.seen
            && (|| Current(t.dispatcher) == {}
                || (Current(t.dispatcher) == Current(s.dispatcher) && t.workers == s.workers && t.out == s.out))
  {
  }

  lemma ReceivedByLoop(s: Server, r: Request)
    ensures LoopEnabled(s, Receive(r)) ==> LoopNext(s, Receive(r)) == Received(s, r)
  {
  }

  lemma LoopKeepsLog(s: Server, l: LoopEvent)
    requires LoopEnabled(s, l)
    requires CurrentIsNew(s.dispatcher, s.workers, s.out, s.seen)
    requires LogDistinct(s.out, s.seen) && LogMatches(s.out, s.workers, s.lost)
    ensures var t := LoopNext(s, l);
            LogDistinct(t.out, t.seen) && LogMatches(t.out, t.workers, t.lost)
  {
    if l.Answer? {
      OutSnoc(s.out, s.dispatcher.response);
      AnswerKeepsLog(s.out, s.dispatcher.response, s.workers, s.seen, s.lost);
    } else if l.Enroll? {
      EnrollKeepsLog(s.out, s.workers, s.dispatcher.id, s.lost);
    }
    hide LogMatches, LogDistinct, CurrentIsNew;
  }

  lemma AnswerKeepsLog(out: seq<Response>, r: Response, ws: seq<Worker>, seen: set<string>, lost: nat)
    requires LogDistinct(out, seen) && LogMatches(out, ws, lost) && r.id in seen && r.id !in OutIds(out)
    requires forall w :: 0 <= w < |ws| ==> ws[w].id != r.id
    ensures LogDistinct(out + [r], seen) && LogMatches(out + [r], ws, lost) && LogMatches(out, ws, lost + 1)
  {
    OutSnoc(out, r);
  }

  lemma EnrollKeepsLog(out: seq<Response>, ws: seq<Worker>, id: string, lost: nat)
    requires LogMatches(out, ws, lost) && id !in OutIds(out)
    ensures LogMatches(out, ws + [Worker(id, Executing)], lost)
  {
  }

  lemma LoopKeepsMeter(s: Server, l: LoopEvent)
    requires LoopEnabled(s, l) && Metered(s) && GreetsFirst(s)
    requires l.Enroll? ==> s.dispatcher.id !in s.active
    ensures Metered(LoopNext(s, l)) && GreetsFirst(LoopNext(s, l))
  {
    if l.Enroll? {
      HoldersAppend(s.workers, s.dispatcher.id);
    } else if l.Greeted? {
      assert Holders([]) == {};
    }
  }

  lemma LoopKeepsCancels(s: Server, l: LoopEvent)
    requires LoopEnabled(s, l) && Registry(s.active, s.workers) && CancelsTruthful(s.dispatcher, s.out, s.workers)
    ensures CancelsTruthful(LoopNext(s, l).dispatcher, LoopNext(s, l).out, LoopNext(s, l).workers)
  {
    hide WellFormed;
  }

  lemma LoopKeepsSwept(s: Server, l: LoopEvent)
    requires LoopEnabled(s, l) && Registry(s.active, s.workers) && SweptAll(s.dispatcher, s.workers, s.cancelled)
    requires ClosesDown(s.dispatcher, s.workers, s.out, s.lost, s.shutdown)
    ensures SweptAll(LoopNext(s, l).dispatcher, LoopNext(s, l).workers, LoopNext(s, l).cancelled)
  {
    hide WellFormed;
  }

  lemma LoopKeepsClosing(s: Server, l: LoopEvent)
    requires LoopEnabled(s, l)
    requires ClosesDown(s.dispatcher, s.workers, s.out, s.lost, s.shutdown)
    ensures var t := LoopNext(s, l);
            ClosesDown(t.dispatcher, t.workers, t.out, t.lost, t.shutdown)
  {
    hide WellFormed;
  }

  // ---------- runs ----------

  /** The registration of an execute always finds its identifier free. */
  lemma EnrollFindsFree(s: Server)
    requires s.dispatcher.Registering? && Registry(s.active, s.workers)
    requires CurrentIsNew(s.dispatcher, s.workers, s.out, s.seen)
    ensures s.dispatcher.id !in s.active
  {
    assert s.dispatcher.id in Current(s.dispatcher);
  }

  lemma EnrollGoesOn(s: Server)
    requires Inv(s) && s.dispatcher.Registering?
    ensures var t := LoopNext(s, Enroll);
            t.dispatcher == Reading && t.workers == s.workers + [Worker(s.dispatcher.id, Executing)]
  {
    EnrollFindsFree(s);
    hide WorkersDistinct, Registry, LogMatches, LogDistinct, Metered, GreetsFirst;
    hide CancelsTruthful, SweptAll, ClosesDown;
  }

  lemma InvNext(s: Server, e: Event)
    requires Inv(s) && Enabled(s, e)
    ensures Inv(Next(s, e))
  {
    hide WorkersDistinct, Registry, CurrentIsNew, LogDistinct, LogMatches, Metered, GreetsFirst;
    hide CancelsTruthful, SweptAll, ClosesDown, LoopNext, WorkNext;
    match e
    case Looping(l) => {
      if l.Enroll? {
        EnrollFindsFree(s);
      }
      LoopKeepsWorkers(s, l);
      LoopKeepsRegistry(s, l);
      LoopKeepsCurrent(s, l);
      LoopKeepsLog(s, l);
      LoopKeepsMeter(s, l);
      LoopKeepsCancels(s, l);
      LoopKeepsSwept(s, l);
      LoopKeepsClosing(s, l);
    }
    case Working(w, e) => {
      WorkKeepsRegistry(s, w, e);
      WorkKeepsCurrent(s, w, e);
      WorkKeepsLog(s, w, e);
      WorkKeepsMeter(s, w, e);
      WorkKeepsClosing(s, w, e);
    }
  }

  datatype Run = Run(states: seq<Server>, events: seq<Event>)

  ghost predicate IsRun(r: Run) {
    && |r.states| == |r.events| + 1 && r.states[0] == FRESH
    && forall i :: 0 <= i < |r.events| ==>
         Enabled(r.states[i], r.events[i]) && r.states[i + 1] == Next(r.states[i], r.events[i])
  }

  ghost predicate Reachable(s: Server) {
    exists r :: IsRun(r) && r.states[|r.events|] == s
  }

  lemma FreshInv()
    ensures Inv(FRESH)
  {
    assert Holders([]) == {};
  }

  lemma {:induction false} RunInv(r: Run, i: nat)
    requires IsRun(r) && i <= |r.events|
    ensures Inv(r.states[i])
  {
    hide Inv, Enabled, Next;
    if i == 0 {
      FreshInv();
    } else {
      RunInv(r, i - 1);
      InvNext(r.states[i - 1], r.events[i - 1]);
    }
  }

  lemma ReachableInv(s: Server)
    requires Reachable(s)
    ensures Inv(s)
  {
    hide Inv, Enabled, Next;
    var r :| IsRun(r) && r.states[|r.events|] == s;
    RunInv(r, |r.events|);
  }

  lemma ReachFresh()
    ensures Reachable(FRESH)
  {
    var r := Run([FRESH], []);
    assert IsRun(r) && r.states[|r.events|] == FRESH;
  }

  lemma ReachNext(s: Server, e: Event)
    requires Reachable(s) && Enabled(s, e)
    ensures Reachable(Next(s, e))
  {
    hide Enabled, Next;
    var r :| IsRun(r) && r.states[|r.events|] == s;
    var q := Run(r.states + [Next(s, e)], r.events + [e]);
    forall i | 0 <= i < |q.events|
      ensures Enabled(q.states[i], q.events[i]) && q.states[i + 1] == Next(q.states[i], q.events[i])
    {
      assert i < |r.events| ==> Enabled(r.states[i], r.events[i]) && r.states[i + 1] == Next(r.states[i], r.events[i]);
    }
    assert IsRun(q) && q.states[|q.events|] == Next(s, e);
  }

  // ---------- what callers rely on ----------

  ghost function Running(ws: seq<Worker>): set<nat> { set w: nat | w < |ws| && ws[w].phase.Executing? }

  /** The number of running executes never exceeds the negotiated limit, at most 64; the semaphore is replaced
      only while no token is out; a registration never finds its identifier taken; and no worker is left once
      `Serve` has returned, whatever the path. */
  lemma ConcurrencyBound(s: Server)
    requires Reachable(s)
    ensures |Running(s.workers)| <= s.limit <= 64
    ensures s.tokens == |Holders(s.workers)| + (if s.dispatcher.Registering? then 1 else 0) <= s.limit
    ensures s.dispatcher.Handshaking? ==> s.tokens == 0
    ensures s.dispatcher.Registering? ==> s.dispatcher.id !in s.active
    ensures s.dispatcher.Ended? ==> AllGone(s.workers)
  {
    hide Reachable;
    ReachableInv(s);
    SubsetSize(Running(s.workers), Holders(s.workers));
    if s.dispatcher.Registering? {
      EnrollFindsFree(s);
    }
    if s.dispatcher.Handshaking? {
      assert Holders([]) == {};
    }
    hide WorkersDistinct, Registry, CurrentIsNew, LogDistinct, LogMatches, CancelsTruthful, SweptAll;
  }

  /** Identifiers: whatever is active was seen; responses have distinct identifiers, all of them received. */
  lemma IdentifierLedger(s: Server)
    requires Reachable(s)
    ensures forall id :: id in s.active ==> id in s.seen
    ensures forall i, j :: 0 <= i < j < |s.out| ==> s.out[i].id != s.out[j].id
    ensures forall i :: 0 <= i < |s.out| ==> s.out[i].id in s.seen
  {
    hide Reachable;
    ReachableInv(s);
    hide CurrentIsNew, LogMatches, Metered, GreetsFirst, CancelsTruthful, SweptAll, ClosesDown;
  }

  /** A cancel answered accepted=false names no execute accepted before it whose `respond` is still to come. */
  lemma RefusedCancel(s: Server, i: nat, w: nat)
    requires Reachable(s) && i < |s.out| && s.out[i].body.CancelBody? && !s.out[i].body.accepted
    requires w < |s.workers| && w < s.out[i].body.asOf && s.workers[w].id == s.out[i].body.target
    ensures Answered(s.workers[w].phase)
    ensures s.lost == 0 ==> s.workers[w].id in OutIds(s.out)
  {
    hide Reachable;
    ReachableInv(s);
    assert Truthful(s.out[i].body, s.workers);
    hide WorkersDistinct, Registry, CurrentIsNew, LogDistinct, Metered, GreetsFirst;
    hide SweptAll, ClosesDown, CancelsTruthful;
  }

  /** While `Handler.Shutdown` runs no execute does; and between the sweep and then, every execute still
      running has had its context cancelled. */
  lemma ShutdownRunsAlone(s: Server)
    requires Reachable(s)
    ensures s.dispatcher.ShuttingDown? ==> Running(s.workers) == {}
    ensures s.dispatcher.Draining? ==> Running(s.workers) <= s.cancelled
  {
    hide Reachable;
    ReachableInv(s);
    hide WorkersDistinct, Registry, CurrentIsNew, LogDistinct, LogMatches, Metered, GreetsFirst, CancelsTruthful;
  }

  /** The positions of the responses to one identifier. */
  ghost function ResponsesTo(out: seq<Response>, id: string): set<nat> { set i: nat | i < |out| && out[i].id == id }

  ghost predicate AnsweredOnce(out: seq<Response>, id: string, before: nat) {
    exists i :: 0 <= i < before && i < |out| && out[i].body.ExecuteBody? && ResponsesTo(out, id) == {i}
  }

  /** When `Serve` has returned after a shutdown and no response was lost: the shutdown response is the last
      frame, every accepted execute has exactly one response, earlier than it, and nothing can be written any more. */
  lemma DrainingShutdown(s: Server, id: string)
    requires Reachable(s) && s.dispatcher.Ended? && id in s.shutdown && s.lost == 0
    ensures s.out != [] && s.out[|s.out| - 1].id == id && s.out[|s.out| - 1].body.ShutdownBody?
    ensures forall w :: 0 <= w < |s.workers| ==> AnsweredOnce(s.out, s.workers[w].id, |s.out| - 1)
    ensures forall e :: !Enabled(s, e)
  {
    hide Reachable;
    ReachableInv(s);
    hide Registry, Metered, GreetsFirst, CancelsTruthful, SweptAll, CurrentIsNew;
    forall w | 0 <= w < |s.workers|
      ensures AnsweredOnce(s.out, s.workers[w].id, |s.out| - 1)
    {
      hide WorkersDistinct, OutIds, LogDistinct, LogMatches, ResponsesTo;
      var i := OneResponse(s.out, s.seen, s.workers, w);
    }
  }

  lemma OneResponse(out: seq<Response>, seen: set<string>, ws: seq<Worker>, w: nat) returns (i: nat)
    requires LogDistinct(out, seen) && LogMatches(out, ws, 0) && w < |ws| && Answered(ws[w].phase)
    ensures i < |out| && out[i].body.ExecuteBody? && ResponsesTo(out, ws[w].id) == {i}
  {
    assert ws[w].id in OutIds(out);
    i :| 0 <= i < |out| && out[i].id == ws[w].id;
  }

  /** A shutdown response that is out is the last one, and from then on nobody writes: every worker is gone, and the
      dispatcher is on its way out. */
  ghost predicate ShutdownLast(s: Server) {
    forall i :: 0 <= i < |s.out| && s.out[i].body.ShutdownBody? ==>
      i == |s.out| - 1 && AllGone(s.workers) && (s.dispatcher.Ending? || s.dispatcher.Joining? || s.dispatcher.Ended?)
  }

  lemma WorkerIsNotGone(s: Server, w: nat, e: WorkEvent)
    requires WorkEnabled(s, w, e)
    ensures !AllGone(s.workers)
  {
  }

  lemma LoopKeepsLast(s: Server, l: LoopEvent)
    requires LoopEnabled(s, l) && ShutdownLast(s)
    requires ClosesDown(s.dispatcher, s.workers, s.out, s.lost, s.shutdown)
    ensures ShutdownLast(LoopNext(s, l))
  {
    hide WellFormed, Routed;
  }

  lemma WorkKeepsLast(s: Server, w: nat, e: WorkEvent)
    requires WorkEnabled(s, w, e) && ShutdownLast(s)
    ensures ShutdownLast(WorkNext(s, w, e))
  {
    WorkerIsNotGone(s, w, e);
  }

  lemma LastStep(s: Server, e: Event)
    requires Inv(s) && Enabled(s, e) && ShutdownLast(s)
    ensures ShutdownLast(Next(s, e))
  {
    hide WorkersDistinct, Registry, CurrentIsNew, LogDistinct, LogMatches, Metered, GreetsFirst;
    hide CancelsTruthful, SweptAll, ClosesDown, ShutdownLast, LoopNext, WorkNext;
    match e
    case Looping(l) => LoopKeepsLast(s, l);
    case Working(w, e) => WorkKeepsLast(s, w, e);
  }

  lemma {:induction false} RunKeepsLast(r: Run, i: nat)
    requires IsRun(r) && i <= |r.events|
    ensures ShutdownLast(r.states[i])
  {
    if i > 0 {
      hide Inv, Enabled, Next, ShutdownLast;
      RunKeepsLast(r, i - 1);
      RunInv(r, i - 1);
      LastStep(r.states[i - 1], r.events[i - 1]);
    }
  }

  /** In every run, whatever else was lost: a shutdown response that got out is the last response, no worker is
      left, and nothing is written any more. */
  lemma ShutdownEndsLog(r: Run, i: nat, j: nat, k: nat)
    requires IsRun(r) && i <= j <= |r.events|
    requires k < |r.states[i].out| && r.states[i].out[k].body.ShutdownBody?
    ensures k == |r.states[i].out| - 1 && AllGone(r.states[i].workers)
    ensures r.states[j].out == r.states[i].out && AllGone(r.states[j].workers)
  {
    RunKeepsLast(r, i);
    LogStays(r, i, j, k);
  }

  lemma LastStays(s: Server, k: nat, e: Event)
    requires Enabled(s, e) && ShutdownLast(s) && k < |s.out| && s.out[k].body.ShutdownBody?
    ensures Next(s, e).out == s.out && Next(s, e).workers == s.workers
  {
    hide WellFormed, Routed;
    if e.Working? {
      WorkerIsNotGone(s, e.w, e.e);
    }
  }

  lemma RunStep(r: Run, i: nat)
    requires IsRun(r) && i < |r.events|
    ensures |r.states| == |r.events| + 1
    ensures Enabled(r.states[i], r.events[i]) && r.states[i + 1] == Next(r.states[i], r.events[i])
  {
    hide Enabled, Next;
  }

  predicate SameLog(s: Server, t: Server) { t.out == s.out && t.workers == s.workers }

  lemma LogStep(r: Run, j: nat, k: nat)
    requires IsRun(r) && j < |r.events|
    requires k < |r.states[j].out| && r.states[j].out[k].body.ShutdownBody?
    ensures SameLog(r.states[j], r.states[j + 1])
  {
    RunStep(r, j);
    RunKeepsLast(r, j);
    hide IsRun, Enabled, Next, ShutdownLast;
    LastStays(r.states[j], k, r.events[j]);
  }

  lemma {:induction false} LogStays(r: Run, i: nat, j: nat, k: nat)
    requires IsRun(r) && i <= j <= |r.events|
    requires k < |r.states[i].out| && r.states[i].out[k].body.ShutdownBody?
    ensures SameLog(r.states[i], r.states[j])
  {
    hide Enabled, Next;
    if i < j {
      LogStays(r, i, j - 1, k);
      LogStep(r, j - 1, k);
    }
  }

  // ---------- a dispatcher that waits for the semaphore ----------

  /** The dispatcher holds an execute and can take no token; until it can, it reads no request, cancels included. */
  predicate Blocked(s: Server) { s.dispatcher.Acquiring? && !LoopEnabled(s, Acquire) }

  lemma HoldersWithin(ws: seq<Worker>)
    ensures |Holders(ws)| <= |ws|
  {
    SubsetSize(Holders(ws), UpTo(|ws|));
  }

  /** It is blocked exactly when as many workers as the limit hold a token, hence never before as many executes as
      the limit have been accepted. */
  lemma BlockedIff(s: Server)
    requires Reachable(s) && s.dispatcher.Acquiring?
    ensures Blocked(s) <==> |Holders(s.workers)| == s.limit
    ensures Blocked(s) ==> |s.workers| >= s.limit
    ensures forall l :: LoopEnabled(s, l) && Blocked(s) ==> l.GiveUp?
  {
    hide Reachable;
    ReachableInv(s);
    HoldersWithin(s.workers);
    hide WorkersDistinct, Registry, CurrentIsNew, LogDistinct, LogMatches;
    hide CancelsTruthful, SweptAll, ClosesDown, Holders;
  }

  /** The identifier of the k-th execute below. */
  function Name(k: nat): (id: string)
    ensures |id| == k + 1 && id[0] == 'e'
  {
    if k == 0 then "e" else Name(k - 1) + "e"
  }

  function ExecuteRequest(k: nat): Request { Request(PROTOCOL_VERSION, Name(k), "execute", 1, Decoded("")) }

  /** The first k executes have been accepted and answered, and none has given its token back. */
  ghost predicate AnsweredHolding(s: Server, k: nat, limit: nat) {
    && s.dispatcher == Reading && s.handshaken && s.limit == limit && s.tokens == k == |s.workers| && s.lost == 0
    && (forall w :: 0 <= w < k ==> s.workers[w] == Worker(Name(w), Removing) && s.workers[w].id in OutIds(s.out))
    && (forall j: nat :: k <= j ==> Name(j) !in s.seen)
  }

  lemma Greets(limit: nat) returns (s: Server)
    requires 1 <= limit <= 64
    ensures Reachable(s) && AnsweredHolding(s, 0, limit)
  {
    hide Reachable;
    ReachFresh();
    var r := Request(PROTOCOL_VERSION, "h", "handshake", 1, Decoded(""));
    ReachNext(FRESH, Looping(Receive(r)));
    s := Next(FRESH, Looping(Receive(r)));
    var e := Looping(Greeted(Offered(PROTOCOL_VERSION, limit)));
    ReachNext(s, e);
    s := Next(s, e);
    ReachNext(s, Looping(Answer(true)));
    s := Next(s, Looping(Answer(true)));
    assert s.seen == {"h"};
  }

  lemma Accepts(s: Server, k: nat, limit: nat) returns (t: Server)
    requires Reachable(s) && AnsweredHolding(s, k, limit)
    ensures Reachable(t) && t == s.(seen := s.seen + {Name(k)}, dispatcher := Acquiring(Name(k)))
  {
    hide Reachable;
    ReachNext(s, Looping(Receive(ExecuteRequest(k))));
    t := Next(s, Looping(Receive(ExecuteRequest(k))));
  }

  lemma Starts(s: Server, id: string) returns (t: Server)
    requires Reachable(s) && s.dispatcher == Acquiring(id) && s.tokens < s.limit
    ensures Reachable(t)
    ensures t == s.(tokens := s.tokens + 1, active := t.active,
                    workers := s.workers + [Worker(id, Executing)], dispatcher := Reading)
  {
    hide Reachable, Inv;
    ReachNext(s, Looping(Acquire));
    t := Next(s, Looping(Acquire));
    ReachableInv(t);
    EnrollGoesOn(t);
    ReachNext(t, Looping(Enroll));
    t := Next(t, Looping(Enroll));
  }

  lemma Answers(s: Server, w: nat) returns (t: Server)
    requires Reachable(s) && w < |s.workers| && s.workers[w].phase == Executing
    ensures Reachable(t)
    ensures t == s.(workers := s.workers[w := Worker(s.workers[w].id, Removing)],
                    out := s.out + [Response(s.workers[w].id, ExecuteBody(true))])
  {
    hide Reachable;
    ReachNext(s, Working(w, Executed(true)));
    t := Next(s, Working(w, Executed(true)));
    ReachNext(t, Working(w, Respond(true)));
    t := Next(t, Working(w, Respond(true)));
  }

  lemma {:induction false} AnswersInTurn(k: nat, limit: nat) returns (s: Server)
    requires k <= limit && 1 <= limit <= 64
    ensures Reachable(s) && AnsweredHolding(s, k, limit)
  {
    hide Reachable;
    if k == 0 {
      s := Greets(limit);
    } else {
      var before := AnswersInTurn(k - 1, limit);
      s := Accepts(before, k - 1, limit);
      s := Starts(s, Name(k - 1));
      s := Answers(s, k - 1);
      OutSnoc(before.out, Response(Name(k - 1), ExecuteBody(true)));
      hide OutIds;
    }
  }

  /** Blocked, although every accepted execute has its response out and none was lost. */
  ghost predicate BlockedAnswered(s: Server) {
    Blocked(s) && s.lost == 0 && forall w :: 0 <= w < |s.workers| ==> s.workers[w].id in OutIds(s.out)
  }

  ghost predicate BlocksWithin(limit: nat, n: nat) {
    exists s :: Reachable(s) && s.limit == limit && |s.workers| <= n && BlockedAnswered(s)
  }

  /** Counting responses does not protect a caller, because a response is written before its token is given back:
      with every accepted execute answered the dispatcher can be blocked, from as many executes on as the limit. */
  lemma BlocksFromLimit(limit: nat, n: nat)
    requires 1 <= limit <= 64
    ensures BlocksWithin(limit, n) <==> n >= limit
  {
    hide Reachable, OutIds;
    if n >= limit {
      var s := AnswersInTurn(limit, limit);
      s := Accepts(s, limit, limit);
      assert BlockedAnswered(s);
    }
    forall s | Reachable(s) && s.limit == limit && Blocked(s) ensures |s.workers| >= limit { BlockedIff(s); }
  }
}
