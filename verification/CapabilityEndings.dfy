/**
 How `Serve` goes on and ends, over the events of any run: the limit it runs with, what the handshake opens, the
 exact causes that end its loop, and that nobody is stuck on the way.
 */
module CapabilityEndings {
  import opened CapabilityModel
  import opened CapabilityRuns
  import opened CapabilityHistory

  /** The loop takes no further request. */
  predicate Over(d: Dispatcher) { d.Ending? || d.Joining? || d.Ended? }

  /** A response after which the loop ends: a refused handshake, or a shutdown. */
  predicate EndsLoop(b: Body) { b == GreetingBody(false) || b.ShutdownBody? }

  /** Step e ends the loop: a request that is rejected, an end of input, an improper handshake result, an end of the
      context while waiting for a token, or a response that was lost or ends it. */
  ghost predicate Ends(s: Server, e: Event) {
    match e
    case Looping(Receive(q)) => Rejected(s, q)
    case Looping(ReadFails) => true
    case Looping(GiveUp) => true
    case Looping(Greeted(g)) => g.Offered? && !ProperOffer(g)
    case Looping(Answer(written)) => s.dispatcher.Answering? && (!written || EndsLoop(s.dispatcher.response.body))
    case _ => false
  }

  /** What follows a response is settled by what it says. */
  predicate AfterIs(d: Dispatcher) {
    d.Answering? ==>
      && (d.after.Stop? <==> EndsLoop(d.response.body))
      && (d.after.Greet? <==> d.response.body == GreetingBody(true))
  }

  /** The handshake is done exactly if its positive response is in the log. */
  ghost predicate OpenedBy(s: Server) {
    s.handshaken <==> exists k :: 0 <= k < |s.out| && s.out[k].body == GreetingBody(true)
  }

  ghost predicate Settled(s: Server) { AfterIs(s.dispatcher) && OpenedBy(s) }

  lemma LoggedBody(s: Server, t: Server, r: Response)
    requires t.out == s.out + [r] && OpenedBy(s)
    ensures OpenedBy(t) <==> (t.handshaken <==> s.handshaken || r.body == GreetingBody(true))
  {
    assert t.out[|s.out|] == r && forall k :: 0 <= k < |s.out| ==> t.out[k] == s.out[k];
  }

  lemma LoopSettled(s: Server, l: LoopEvent)
    requires LoopEnabled(s, l) && Settled(s)
    ensures Settled(LoopNext(s, l))
  {
    if l == Answer(true) {
      LoggedBody(s, LoopNext(s, l), s.dispatcher.response);
    } else if l.Receive? {
      RequestDecides(s, l.request);
      hide LoopNext, Rejected;
    }
    hide OpenedBy;
    assert l != Answer(true) ==> OpenedBy(LoopNext(s, l)) by { OpenedSame(s, LoopNext(s, l)); }
  }

  lemma OpenedSame(s: Server, t: Server)
    ensures OpenedBy(s) && t.out == s.out && t.handshaken == s.handshaken ==> OpenedBy(t)
  {
  }

  lemma WorkSettled(s: Server, w: nat, e: WorkEvent)
    requires WorkEnabled(s, w, e) && Settled(s)
    ensures Settled(WorkNext(s, w, e))
  {
    if e == Respond(true) {
      LoggedBody(s, WorkNext(s, w, e), Response(s.workers[w].id, ExecuteBody(s.workers[w].phase.ok)));
    }
    OpenedSame(s, WorkNext(s, w, e));
    hide OpenedBy;
  }

  lemma SettledStep(s: Server, e: Event)
    requires Enabled(s, e) && Settled(s)
    ensures Settled(Next(s, e))
  {
    hide Settled, LoopNext, WorkNext, LoopEnabled, WorkEnabled;
    match e
    case Looping(l) => LoopSettled(s, l);
    case Working(w, e) => WorkSettled(s, w, e);
  }

  /** In every run the handshake is done exactly if its positive response got out. */
  lemma {:induction false} OpensWithResponse(r: Run, i: nat)
    requires IsRun(r) && i <= |r.events|
    ensures Settled(r.states[i])
  {
    if i > 0 {
      hide Settled, Next;
      OpensWithResponse(r, i - 1);
      SettledStep(r.states[i - 1], r.events[i - 1]);
    }
  }

  // ---------- the end of the loop ----------

  lemma OverStep(s: Server, e: Event)
    requires Enabled(s, e) && AfterIs(s.dispatcher)
    requires s.dispatcher.Registering? ==> s.dispatcher.id !in s.active
    ensures Over(Next(s, e).dispatcher) <==> Over(s.dispatcher) || Ends(s, e)
  {
    if e.Looping? && e.l.Receive? {
      RequestDecides(s, e.l.request);
      hide LoopNext, Rejected;
    }
  }

  ghost predicate EndsIn(r: Run, j: nat) { j < |r.events| && j < |r.states| && Ends(r.states[j], r.events[j]) }

  lemma RegistersFree(r: Run, i: nat)
    requires IsRun(r) && i <= |r.events|
    ensures r.states[i].dispatcher.Registering? ==> r.states[i].dispatcher.id !in r.states[i].active
  {
    RunInv(r, i);
  }

  /** In every run the loop has ended exactly if an earlier step was one that ends it: nothing else ends it, and
      nothing lets it go on. */
  lemma {:induction false} OverIff(r: Run, i: nat)
    requires IsRun(r) && i <= |r.events|
    ensures Over(r.states[i].dispatcher) <==> exists j: nat :: j < i && EndsIn(r, j)
  {
    if i > 0 {
      hide Next, Ends, Settled;
      OverIff(r, i - 1);
      OpensWithResponse(r, i - 1);
      assert AfterIs(r.states[i - 1].dispatcher) by { SettledAfter(r.states[i - 1]); }
      RegistersFree(r, i - 1);
      OverStep(r.states[i - 1], r.events[i - 1]);
      assert EndsIn(r, i - 1) <==> Ends(r.states[i - 1], r.events[i - 1]);
    }
  }

  lemma SettledAfter(s: Server)
    requires Settled(s)
    ensures AfterIs(s.dispatcher)
  {
  }

  lemma ReturnStep(s: Server, e: Event)
    requires Enabled(s, e)
    ensures Next(s, e).dispatcher.Ended? <==> s.dispatcher.Ended? || e == Looping(Join)
    ensures Next(s, e).dispatcher.Joining? || Next(s, e).dispatcher.Ended? <==>
            s.dispatcher.Joining? || s.dispatcher.Ended? || e == Looping(EndSweep)
  {
    if e.Looping? && e.l.Receive? {
      RequestDecides(s, e.l.request);
      hide LoopNext, Rejected;
    }
  }

  /** In every run `Serve` has returned exactly if it has waited for its workers, and waits for them only once it has
      called every cancel function. */
  lemma {:induction false} ReturnedIff(r: Run, i: nat)
    requires IsRun(r) && i <= |r.events|
    ensures r.states[i].dispatcher.Ended? <==> exists j: nat :: j < i && r.events[j] == Looping(Join)
    ensures r.states[i].dispatcher.Joining? || r.states[i].dispatcher.Ended? <==>
            exists j: nat :: j < i && r.events[j] == Looping(EndSweep)
  {
    if i > 0 {
      hide Next, Enabled;
      ReturnedIff(r, i - 1);
      ReturnStep(r.states[i - 1], r.events[i - 1]);
    }
  }

  // ---------- the limit ----------

  /** The e-th event is a proper handshake result, which offers n. */
  ghost predicate Offers(r: Run, e: nat, n: int) {
    && e < |r.events| && r.events[e].Looping? && r.events[e].l.Greeted?
    && r.events[e].l.greeting.Offered? && ProperOffer(r.events[e].l.greeting)
    && r.events[e].l.greeting.maxConcurrency == n
  }

  predicate PastGreeting(s: Server) {
    s.handshaken || Over(s.dispatcher) || (s.dispatcher.Answering? && s.dispatcher.response.body == GreetingBody(true))
  }

  lemma LimitStep(s: Server, e: Event)
    requires Enabled(s, e) && GreetsFirst(s) && AfterIs(s.dispatcher)
    ensures PastGreeting(s) ==> PastGreeting(Next(s, e)) && Next(s, e).limit == s.limit
    ensures !(e.Looping? && e.l.Greeted? && e.l.greeting.Offered? && ProperOffer(e.l.greeting)) ==>
              Next(s, e).limit == s.limit
    ensures e.Looping? && e.l.Greeted? && e.l.greeting.Offered? && ProperOffer(e.l.greeting) ==>
              Next(s, e).limit == e.l.greeting.maxConcurrency && PastGreeting(Next(s, e))
  {
    hide Routed, WellFormed;
  }

  lemma LimitAt(r: Run, i: nat)
    requires IsRun(r) && i < |r.events|
    ensures Enabled(r.states[i], r.events[i]) && r.states[i + 1] == Next(r.states[i], r.events[i])
    ensures GreetsFirst(r.states[i]) && AfterIs(r.states[i].dispatcher)
  {
    hide Next, Settled;
    RunInv(r, i);
    OpensWithResponse(r, i);
    SettledAfter(r.states[i]);
  }

  /** In every run at most as many executes may run as the handshake offered, and one before it. */
  lemma {:induction false} LimitIsOffered(r: Run, e: nat, n: int, i: nat)
    requires IsRun(r) && e < i <= |r.events| && Offers(r, e, n)
    ensures r.states[i].limit == n && PastGreeting(r.states[i])
  {
    hide Next, Enabled, GreetsFirst, PastGreeting, AfterIs;
    LimitAt(r, i - 1);
    LimitStep(r.states[i - 1], r.events[i - 1]);
    if e < i - 1 {
      LimitIsOffered(r, e, n, i - 1);
    }
  }

  lemma {:induction false} LimitIsOne(r: Run, i: nat)
    requires IsRun(r) && i <= |r.events| && forall e: nat, n: int :: e < i ==> !Offers(r, e, n)
    ensures r.states[i].limit == 1
  {
    if i > 0 {
      hide Next, Enabled, GreetsFirst, PastGreeting, AfterIs;
      LimitAt(r, i - 1);
      LimitStep(r.states[i - 1], r.events[i - 1]);
      var e := r.events[i - 1];
      assert e.Looping? && e.l.Greeted? && e.l.greeting.Offered? ==> !Offers(r, i - 1, e.l.greeting.maxConcurrency);
      LimitIsOne(r, i - 1);
    }
  }

  // ---------- nobody is stuck ----------

  /** What the dispatcher can do in every position; it waits only for a token and for workers to be gone. */
  ghost predicate LoopMay(s: Server) {
    match s.dispatcher
    case Reading => LoopEnabled(s, ReadFails) && forall q :: LoopEnabled(s, Receive(q))
    case Handshaking(_) => forall g :: LoopEnabled(s, Greeted(g))
    case Probing(_) => forall ok :: LoopEnabled(s, Probed(ok))
    case Acquiring(_) =>
      LoopEnabled(s, GiveUp) && (|Holders(s.workers)| < s.limit ==> LoopEnabled(s, Acquire))
    case Registering(_) => LoopEnabled(s, Enroll)
    case Cancelling(_, _) => LoopEnabled(s, LookUp)
    case Sweeping(_) => LoopEnabled(s, SweepActive)
    case Draining(_) => AllGone(s.workers) ==> LoopEnabled(s, Drained)
    case ShuttingDown(_) => forall ok :: LoopEnabled(s, ShutDown(ok))
    case Answering(_, _) => forall written :: LoopEnabled(s, Answer(written))
    case Ending => LoopEnabled(s, EndSweep)
    case Joining => AllGone(s.workers) ==> LoopEnabled(s, Join)
    case Ended => true
  }

  ghost predicate WorkerMay(s: Server, w: nat)
    requires w < |s.workers|
  {
    match s.workers[w].phase
    case Executing => forall ok :: WorkEnabled(s, w, Executed(ok))
    case Responding(_) => forall written :: WorkEnabled(s, w, Respond(written))
    case Removing => WorkEnabled(s, w, Remove)
    case Releasing => WorkEnabled(s, w, Release)
    case Finishing => WorkEnabled(s, w, Done)
    case Gone => true
  }

  lemma AllMay(s: Server)
    requires Metered(s)
    ensures LoopMay(s) && forall w: nat :: w < |s.workers| ==> WorkerMay(s, w)
  {
    forall w: nat | w < |s.workers| ensures WorkerMay(s, w) {
      if s.workers[w].phase.Releasing? {
        assert w in Holders(s.workers);
      }
    }
  }

  /** In every run: the dispatcher and every worker can take the step their position asks for, except that the
      dispatcher waits for a token while the limit is held, and for its workers to be gone. */
  lemma ServesOn(r: Run, i: nat)
    requires IsRun(r) && i <= |r.events|
    ensures LoopMay(r.states[i]) && forall w: nat :: w < |r.states[i].workers| ==> WorkerMay(r.states[i], w)
  {
    hide LoopMay, WorkerMay, Metered, Next, Enabled;
    RunInv(r, i);
    AllMay(r.states[i]);
  }
}
