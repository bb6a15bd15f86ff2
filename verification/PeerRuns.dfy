/** Runs of one peer whose other side may send anything at all. */
module PeerRuns {
  import opened Basics
  import opened Envelope
  import opened PeerModel
  import opened PeerInvariants

  datatype PeerRun = PeerRun(states: seq<PeerState>, events: seq<Event>)

  ghost predicate IsRun(r: PeerRun) {
    && |r.states| == |r.events| + 1
    && (exists instance, prefix :: r.states[0] == Fresh(instance, prefix))
    && (forall i :: 0 <= i < |r.events| ==> Follows(r.states[i], r.events[i], r.states[i + 1]))
  }

  lemma {:induction false} RunInv(r: PeerRun, i: nat)
    requires IsRun(r) && i <= |r.events|
    ensures HandlerInv(r.states[i])
  {
    hide HandlerInv, Next, Enabled;
    if i == 0 {
      var instance, prefix :| r.states[0] == Fresh(instance, prefix);
      FreshHandlers(Fresh(instance, prefix));
    } else {
      RunInv(r, i - 1);
      assert Follows(r.states[i - 1], r.events[i - 1], r.states[i]);
      HandlerInvNext(r.states[i - 1], r.events[i - 1]);
    }
  }

  // ---------- slots ----------

  /** Handlers that have queued their reply, or failed to, and still hold their token. */
  predicate Lingers(w: Worker) { w.ReplyLost? || w.Unwinding? || w.Releasing? }
  predicate Unanswered(w: Worker) { w.Admitted? || w.Running? || w.Replying? }

  ghost function Those(ws: seq<Worker>, which: Worker -> bool): set<nat> { set h: nat | h < |ws| && which(ws[h]) }

  lemma LiveSplit(ws: seq<Worker>)
    ensures |Live(ws)| == |Those(ws, Unanswered)| + |Those(ws, Lingers)|
  {
    var a, b := Those(ws, Unanswered), Those(ws, Lingers);
    assert Live(ws) == a + b && a !! b;
  }

  lemma TokensSplit(hs: Handlers)
    requires Sound(hs)
    ensures |hs.active| <= hs.slots == |Those(hs.pcs, Unanswered)| + |Those(hs.pcs, Lingers)|
  {
    hide ActiveOwned, Responses, AdmissionsRecorded;
    SubsetSize(Entered(hs.pcs), Live(hs.pcs));
    LiveSplit(hs.pcs);
  }

  /** In every reachable state, closing included: the tokens in `slots` are the accepted requests not yet
      answered plus the handlers still unwinding, never more than 8; `active` never holds more entries. */
  lemma SlotsConserved(r: PeerRun, i: nat)
    requires IsRun(r) && i <= |r.events|
    ensures var hs := r.states[i].handlers;
            && |hs.active| <= hs.slots <= SLOTS
            && hs.slots == |Those(hs.pcs, Unanswered)| + |Those(hs.pcs, Lingers)|
  {
    RunInv(r, i);
    hide IsRun, SlotsCounted, ActiveOwned, Responses, AdmissionsRecorded, Shaped;
    TokensSplit(r.states[i].handlers);
  }

  lemma OwnEntry(hs: Handlers, h: nat)
    requires Sound(hs) && h < |hs.pcs| && hs.pcs[h] == Unwinding
    ensures var id := hs.jobs[h].request.id;
            && id in hs.active && hs.active[id] == h
            && forall jd :: jd in hs.active && hs.active[jd] == h ==> jd == id
  {
    hide SlotsCounted, Responses, AdmissionsRecorded;
  }

  /** The deferred clean-up of a handler removes its own entry of `active` and no other. */
  lemma ForgetRemovesOwn(r: PeerRun, i: nat, h: nat)
    requires IsRun(r) && i < |r.events| && r.events[i] == Working(h, Forget)
    ensures var before, after := r.states[i].handlers.active, r.states[i + 1].handlers.active;
            && (exists id :: id in before && before[id] == h && after == before - {id})
            && forall id :: id in before && before[id] != h ==> id in after && after[id] == before[id]
  {
    hide Sound, SendsAccounted, SpawnPending, SweepCovers;
    RunInv(r, i);
    var p, q := r.states[i], r.states[i + 1];
    assert Follows(p, r.events[i], q);
    hide IsRun;
    OwnEntry(p.handlers, h);
    var id := p.handlers.jobs[h].request.id;
    assert q.handlers.active == p.handlers.active - {id};
  }

  lemma GoneStays(p: PeerState, e: Event, h: nat)
    requires Shaped(p) && Enabled(p, e) && SpawnPending(p.handlers, p.reader)
    requires h < |p.handlers.pcs| && p.handlers.pcs[h] == Gone
    ensures h < |Next(p, e).handlers.pcs| && Next(p, e).handlers.pcs[h] == Gone
    ensures !(e.Working? && e.h == h)
  {
    match e
    case Issue(_, _, _) =>
    case Calling(k, c) => assert CallNext(p, k, c).handlers == p.handlers;
    case Working(_, _) =>
    case Wiring(w) =>
  }

  lemma ReleaseLeaves(p: PeerState, h: nat, q: PeerState)
    requires Follows(p, Working(h, Release), q)
    ensures h < |q.handlers.pcs| && q.handlers.pcs[h] == Gone
  {
  }

  lemma {:induction false} GoneFrom(r: PeerRun, i: nat, j: nat, h: nat)
    requires IsRun(r) && i < j <= |r.events| && r.events[i] == Working(h, Release)
    ensures h < |r.states[j].handlers.pcs| && r.states[j].handlers.pcs[h] == Gone
  {
    hide Sound, SendsAccounted, SweepCovers, SpawnPending, Next, Enabled, Shaped;
    assert Follows(r.states[j - 1], r.events[j - 1], r.states[j]);
    if i == j - 1 {
      ReleaseLeaves(r.states[i], h, r.states[j]);
    } else {
      GoneFrom(r, i, j - 1, h);
      RunInv(r, j - 1);
      GoneStays(r.states[j - 1], r.events[j - 1], h);
    }
  }

  /** A token is released once in a whole run: after a handler's release no event is that handler's. */
  lemma ReleasedOnce(r: PeerRun, i: nat, j: nat, h: nat)
    requires IsRun(r) && i < j < |r.events| && r.events[i] == Working(h, Release)
    ensures !(r.events[j].Working? && r.events[j].h == h)
  {
    hide Sound, SendsAccounted, SweepCovers, SpawnPending;
    GoneFrom(r, i, j, h);
    RunInv(r, j);
    assert Follows(r.states[j], r.events[j], r.states[j + 1]);
    GoneStays(r.states[j], r.events[j], h);
  }

  // ---------- the close sweep ----------

  /** Handlers that may still run and whose context nobody has cancelled. */
  ghost function Uncancelled(hs: Handlers): set<nat> {
    set h: nat | h < |hs.pcs| && InActive(hs.pcs[h]) && h !in hs.fired
  }

  lemma SweptButOne(hs: Handlers, reader: Reader)
    requires SweepCovers(hs, Swept, reader)
    ensures |Uncancelled(hs)| <= 1
  {
    SubsetSize(Uncancelled(hs), {hs.swept});
  }

  /** After `Close` has swept, at most one handler is left uncancelled. */
  lemma SweepLeavesOne(r: PeerRun, i: nat)
    requires IsRun(r) && i <= |r.events| && r.states[i].stage == Swept
    ensures |Uncancelled(r.states[i].handlers)| <= 1
  {
    hide Sound, SendsAccounted, SpawnPending, Shaped, SweepCovers, Follows, Uncancelled;
    RunInv(r, i);
    SweptButOne(r.states[i].handlers, r.states[i].reader);
  }

  /** No step but the registration of a handler adds to the uncancelled ones. */
  ghost predicate NoMoreActive(hs: Handlers, ht: Handlers) {
    && |ht.pcs| == |hs.pcs| && ht.fired >= hs.fired
    && (forall h :: 0 <= h < |hs.pcs| && InActive(ht.pcs[h]) ==> InActive(hs.pcs[h]))
  }

  lemma WorkNoMore(p: PeerState, h: nat, w: WorkEvent)
    requires Shaped(p) && WorkEnabled(p, h, w)
    ensures NoMoreActive(p.handlers, WorkNext(p, h, w).handlers)
  {
  }

  lemma WireNoMore(p: PeerState, w: WireEvent)
    requires Shaped(p) && WireEnabled(p, w) && SpawnPending(p.handlers, p.reader)
    requires !(w.Dispatch? && Admits(p, p.reader.held))
    ensures NoMoreActive(p.handlers, WireNext(p, w).handlers)
  {
    hide WellFormed;
    if !(w.Spawn? || w.Dispatch? || w.Sweep?) {
      assert WireNext(p, w).handlers == p.handlers;
    }
  }

  lemma UncancelledStep(p: PeerState, e: Event, q: PeerState)
    requires Follows(p, e, q) && SpawnPending(p.handlers, p.reader)
    requires !(e == Wiring(Dispatch) && p.reader.Holding? && Admits(p, p.reader.held))
    ensures Uncancelled(q.handlers) <= Uncancelled(p.handlers)
  {
    hide SpawnPending, Admits, WorkNext, WorkEnabled, WireNext, Shaped;
    assert NoMoreActive(p.handlers, q.handlers) by {
      match e
      case Issue(_, _, _) =>
      case Calling(k, c) => assert CallNext(p, k, c).handlers == p.handlers;
      case Working(h, w) => WorkNoMore(p, h, w);
      case Wiring(w) => WireNoMore(p, w);
    }
    hide Follows;
  }

  lemma AdmittedEscapes(p: PeerState, m: Message)
    requires FiredExist(p.handlers) && Admits(p, m)
    ensures Uncancelled(Dispatched(p, m).handlers) != {}
  {
    hide WellFormed;
    assert |p.handlers.pcs| in Uncancelled(Dispatched(p, m).handlers);
  }

  lemma SweepCancelsAll(p: PeerState, q: PeerState)
    requires Follows(p, Wiring(Sweep), q) && Sound(p.handlers)
    ensures Uncancelled(q.handlers) == {}
  {
    hide Sound;
    ActiveAreFired(p.handlers);
  }

  /** The d-th event dispatches a request that is admissible there. */
  predicate AdmitsAt(r: PeerRun, d: nat) {
    && d < |r.events| && d < |r.states| && r.events[d] == Wiring(Dispatch)
    && r.states[d].reader.Holding? && Admits(r.states[d], r.states[d].reader.held)
  }

  lemma {:induction false} NoneEscapes(r: PeerRun, i: nat, j: nat)
    requires IsRun(r) && i < j <= |r.events| && r.events[i] == Wiring(Sweep)
    requires forall d: nat :: i < d < j ==> !AdmitsAt(r, d)
    ensures Uncancelled(r.states[j].handlers) == {}
  {
    hide Sound, SpawnPending, SendsAccounted, SweepCovers, FiredExist, Shaped, Admits, Uncancelled, Follows;
    RunInv(r, j - 1);
    var p, e, q := r.states[j - 1], r.events[j - 1], r.states[j];
    assert Follows(p, e, q);
    if i == j - 1 {
      SweepCancelsAll(p, q);
    } else {
      NoneEscapes(r, i, j - 1);
      assert !AdmitsAt(r, j - 1);
      UncancelledStep(p, e, q);
    }
  }

  /** In the j-th state some handler that may still run has not been cancelled. */
  ghost predicate EscapedBy(r: PeerRun, j: nat) { j < |r.states| && Uncancelled(r.states[j].handlers) != {} }

  /** In a run that sweeps at its i-th event: some later state has a handler that may still run and that nobody
      has cancelled, if and only if a later dispatch finds the request it holds admissible. */
  lemma LateHandlerIff(r: PeerRun, i: nat)
    requires IsRun(r) && i < |r.events| && r.events[i] == Wiring(Sweep)
    ensures (exists j: nat :: i < j <= |r.events| && EscapedBy(r, j)) <==>
            (exists d: nat :: i < d < |r.events| && AdmitsAt(r, d))
  {
    hide HandlerInv, Shaped, Admits, Uncancelled, AdmitsAt;
    assert |r.states| == |r.events| + 1;
    hide IsRun;
    forall j: nat | i < j <= |r.events| && EscapedBy(r, j)
      ensures exists d: nat :: i < d < |r.events| && AdmitsAt(r, d)
    {
      FindAdmitted(r, i, j);
    }
    forall d: nat | i < d < |r.events| && AdmitsAt(r, d) ensures EscapedBy(r, d + 1) {
      EscapesAt(r, d);
    }
  }

  lemma FindAdmitted(r: PeerRun, i: nat, j: nat)
    requires IsRun(r) && i < j <= |r.events| && r.events[i] == Wiring(Sweep) && Uncancelled(r.states[j].handlers) != {}
    ensures exists d: nat :: i < d < |r.events| && AdmitsAt(r, d)
  {
    hide HandlerInv, AdmitsAt, Uncancelled;
    if forall d: nat :: i < d < j ==> !AdmitsAt(r, d) {
      NoneEscapes(r, i, j);
    }
  }

  lemma EscapesAt(r: PeerRun, d: nat)
    requires IsRun(r) && d < |r.events| && AdmitsAt(r, d)
    ensures Uncancelled(r.states[d + 1].handlers) != {}
  {
    hide Sound, SendsAccounted, SweepCovers, SpawnPending, Admits, Uncancelled, Dispatched, FiredExist;
    assert Follows(r.states[d], r.events[d], r.states[d + 1]);
    RunInv(r, d);
    AdmittedEscapes(r.states[d], r.states[d].reader.held);
  }

  lemma {:induction false} ReaderIdle(r: PeerRun, i: nat, j: nat)
    requires IsRun(r) && i < j <= |r.events| && r.events[i] == Wiring(Sweep) && !r.states[i].reader.Holding?
    ensures r.states[j].stage == Swept && !r.states[j].reader.Holding?
  {
    if i < j - 1 {
      ReaderIdle(r, i, j - 1);
    }
    hide Shaped;
    assert Follows(r.states[j - 1], r.events[j - 1], r.states[j]);
  }

  /** Hence, if the reader held no message when the sweep was over, every handler that may still run has been
      cancelled, now and in every later state. */
  lemma NoLateHandler(r: PeerRun, i: nat, j: nat)
    requires IsRun(r) && i < j <= |r.events| && r.events[i] == Wiring(Sweep) && !r.states[i].reader.Holding?
    ensures Uncancelled(r.states[j].handlers) == {}
  {
    hide Shaped, Follows, Admits, Uncancelled;
    forall d: nat | i < d < j ensures !AdmitsAt(r, d) { ReaderIdle(r, i, d); }
    NoneEscapes(r, i, j);
  }

  // ---------- states that show where the promises stop ----------

  ghost predicate Reachable(p: PeerState) {
    exists r :: IsRun(r) && r.states[|r.events|] == p
  }

  lemma ReachFresh(instance: string, prefix: string)
    ensures Reachable(Fresh(instance, prefix)) && Shaped(Fresh(instance, prefix))
  {
    var r := PeerRun([Fresh(instance, prefix)], []);
    assert IsRun(r) && r.states[|r.events|] == Fresh(instance, prefix);
  }

  lemma ReachNext(p: PeerState, e: Event)
    requires Reachable(p) && Shaped(p) && Enabled(p, e)
    ensures Reachable(Next(p, e)) && Shaped(Next(p, e))
  {
    ShapedNext(p, e);
    hide Shaped, Enabled, Next;
    var r :| IsRun(r) && r.states[|r.events|] == p;
    var q := PeerRun(r.states + [Next(p, e)], r.events + [e]);
    forall i | 0 <= i < |q.events|
      ensures Follows(q.states[i], q.events[i], q.states[i + 1])
    {
      assert i < |r.events| ==> Follows(r.states[i], r.events[i], r.states[i + 1]);
    }
    assert IsRun(q) && q.states[|q.events|] == Next(p, e);
  }

  /** A well-formed request of the other side. */
  function Incoming(serial: nat): Message { RequestMessage("i", CallId("host", serial), "run", 1, "{}") }

  lemma IncomingWellFormed(serial: nat)
    ensures var m := Incoming(serial);
            && WellFormed(m, "i") && IsRequest(m) && m.verb != "" && m.verb != CANCEL && m.deadline != 0
            && m.id == CallId("host", serial)
  {
  }

  lemma ReachAdmit(p: PeerState, m: Message)
    requires Reachable(p) && Shaped(p) && p.reader == Holding(m) && Admits(p, m)
    ensures var q := p.(reader := Spawning(|p.handlers.jobs|), handlers := p.handlers.Admit(m));
            Reachable(q) && Shaped(q)
  {
    hide Reachable, Shaped, WellFormed;
    ReachNext(p, Wiring(Dispatch));
  }

  lemma ReachReceive(p: PeerState, m: Message)
    requires Reachable(p) && Shaped(p) && p.reader == Reading && StreamUsable(p)
    ensures Reachable(p.(reader := Holding(m))) && Shaped(p.(reader := Holding(m)))
  {
    hide Reachable, Shaped;
    ReachNext(p, Wiring(Receive(m)));
  }

  lemma CloseWhileHolding(p: PeerState, m: Message) returns (q: PeerState)
    requires Reachable(p) && Shaped(p) && p.stage == Open && p.reader == Holding(m) && Admits(p, m)
    requires p.handlers == Handlers(map[], 0, [], [], map[], {}, 0)
    ensures Reachable(q) && q.stage == Swept && Uncancelled(q.handlers) == {0}
  {
    hide Reachable, WellFormed;
    ReachNext(p, Wiring(Close));
    ReachNext(p.(stage := DoneClosed), Wiring(CloseStream));
    var r := p.(stage := StreamClosed);
    ReachNext(r, Wiring(Sweep));
    assert p.handlers.active.Values == {};
    q := p.(stage := Swept);
    assert WireNext(r, Sweep) == q;
    ReachAdmit(q, m);
    q := q.(reader := Spawning(|q.handlers.jobs|), handlers := q.handlers.Admit(m));
    assert q.handlers.pcs == [Admitted];
    assert Uncancelled(q.handlers) == {0};
  }

  /** `Close` does not cancel every handler: a request already held may be dispatched after the sweep. */
  lemma CloseMayMissOne()
    ensures exists p :: Reachable(p) && p.stage == Swept && Uncancelled(p.handlers) == {0}
  {
    var m := Incoming(1);
    IncomingWellFormed(1);
    hide Reachable, WellFormed, CallId, RequestMessage;
    ReachFresh("i", "plugin");
    var p := Fresh("i", "plugin");
    ReachReceive(p, m);
    var q := CloseWhileHolding(p.(reader := Holding(m)), m);
  }

  /** m is a well-formed new request, which the reader of p refuses all the same, closing the peer. */
  ghost predicate RefusedForSlots(p: PeerState, m: Message) {
    && p.stage == Open && p.reader == Holding(m)
    && WellFormed(m, p.instance) && IsRequest(m) && m.verb != "" && m.verb != CANCEL && m.deadline != 0
    && m.id !in p.handlers.active && Dispatched(p, m).stage != Open
  }

  /** A proper new request is refused exactly when eight earlier handlers still hold their token: those not yet
      answered, and those whose reply is queued but whose clean-up is not over. */
  lemma OverflowIff(r: PeerRun, i: nat, m: Message)
    requires IsRun(r) && i <= |r.events| && r.states[i].stage == Open && r.states[i].reader == Holding(m)
    requires WellFormed(m, r.states[i].instance) && IsRequest(m) && m.verb != "" && m.verb != CANCEL && m.deadline != 0
    requires m.id !in r.states[i].handlers.active
    ensures var hs := r.states[i].handlers;
            RefusedForSlots(r.states[i], m) <==> |Those(hs.pcs, Unanswered)| + |Those(hs.pcs, Lingers)| == SLOTS
  {
    SlotsConserved(r, i);
    hide IsRun, WellFormed, Those;
    var p := r.states[i];
    assert Admits(p, m) <==> p.handlers.slots < SLOTS;
  }
}
