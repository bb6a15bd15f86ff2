/**
 A host peer and a plugin peer whose handler is the lifecycle handler: every plugin handler goroutine tries
 the gate, and what it answers is what that invocation came to. The end-to-end question is whether a host
 that makes one lifecycle call at a time can ever be told "lifecycle busy".
 */
module ServedPlugin {
  import opened Envelope
  import opened PeerModel
  import opened PeerInvariants
  import opened Duplex
  import opened DuplexRuns
  import opened SerialHost
  import Lifecycle
  import PeerHistory
  import G = LifecycleGate

  const BUSY := Failed("special: lifecycle busy")

  /** `entered` are the handlers that have tried the gate; `results` what their invocation came to; `order` those
      that won, in the order of `machine.rounds`. */
  datatype Serving = Serving(
    sys: Sys, machine: G.Machine, entered: set<nat>, results: map<nat, Outcome>, order: seq<nat>)

  function Idle(a: string, b: string): Serving { Serving(Start(a, b), G.IDLE, {}, map[], []) }

  datatype Act =
    | Wire(m: Move)
    | Lock(h: nat)
    | Proceed
    | Back(ended: Lifecycle.Ended)
    | Unlock
    | Finish(h: nat)

  datatype Provider = Provider(
    features: Lifecycle.Features, encode: Lifecycle.Encoder, decoders: Lifecycle.Decoders)
  {
    /** What the handler makes of a request message. */
    function Decode(m: Message): Lifecycle.Request { Lifecycle.Understood(m.verb, m.payload, decoders) }
  }

  predicate RunsHandler(s: Serving, h: nat) {
    h < |s.sys.plugin.handlers.pcs| && s.sys.plugin.handlers.pcs[h] == Running
  }

  ghost predicate CanAct(s: Serving, a: Act) {
    match a
    case Wire(m) => CanMove(s.sys, m) && !IsFinish(m)
    case Lock(h) => RunsHandler(s, h) && h < |s.sys.plugin.handlers.jobs| && h !in s.entered
    case Proceed => G.Enabled(s.machine, G.Proceed)
    case Back(ended) => G.Enabled(s.machine, G.Back(ended))
    case Unlock => G.Enabled(s.machine, G.Leave)
    case Finish(h) =>
      && RunsHandler(s, h) && h in s.results
      && CanMove(s.sys, PluginMoves(Working(h, WorkEvent.Finish(s.results[h]))))
  }

  function Acted(s: Serving, a: Act, p: Provider): Serving
    requires CanAct(s, a)
  {
    match a
    case Wire(m) => s.(sys := Moved(s.sys, m))
    case Lock(h) =>
      var request := p.Decode(s.sys.plugin.handlers.jobs[h].request);
      s.(machine := G.Next(s.machine, G.Try(h, request), p.features, p.encode), entered := s.entered + {h},
         results := if s.machine.gate.Free? then s.results else s.results[h := BUSY])
    case Proceed => s.(machine := G.Next(s.machine, G.Proceed, p.features, p.encode))
    case Back(ended) => s.(machine := G.Next(s.machine, G.Back(ended), p.features, p.encode))
    case Unlock =>
      s.(machine := G.Next(s.machine, G.Leave, p.features, p.encode),
         results := s.results[s.machine.gate.who := s.machine.gate.at.outcome],
         order := s.order + [s.machine.gate.who])
    case Finish(h) => s.(sys := Moved(s.sys, PluginMoves(Working(h, WorkEvent.Finish(s.results[h])))))
  }

  datatype Session = Session(states: seq<Serving>, acts: seq<Act>)

  /** A session with any host: it may start calls whenever it likes, with others in flight. */
  ghost predicate IsServed(r: Session, p: Provider) {
    && |r.states| == |r.acts| + 1
    && (exists a, b :: r.states[0] == Idle(a, b))
    && (forall i :: 0 <= i < |r.acts| ==>
          CanAct(r.states[i], r.acts[i]) && r.states[i + 1] == Acted(r.states[i], r.acts[i], p))
  }

  ghost predicate Served(s: Serving, p: Provider) {
    exists r :: IsServed(r, p) && r.states[|r.acts|] == s
  }

  predicate Disciplined(s: Serving, a: Act, after: set<Exit>) { a.Wire? ==> HostWaits(s.sys, a.m, after) }

  /** A session in which the host makes one call at a time, content with earlier calls that ended as in `after`. */
  ghost predicate IsSession(r: Session, after: set<Exit>, p: Provider) {
    IsServed(r, p) && forall i :: 0 <= i < |r.acts| ==> Disciplined(r.states[i], r.acts[i], after)
  }

  ghost predicate Reached(s: Serving, after: set<Exit>, p: Provider) {
    exists r :: IsSession(r, after, p) && r.states[|r.acts|] == s
  }

  /** The ways in which a call ends before its request is queued, or with a reply. */
  const SETTLED := {Refused, NotSent, Took, Acked}
  const ANYHOW := {Refused, NotSent, Took, PeerDone, Acked, GaveUp}

  // ---------- never busy ----------

  /** Every call of the host but the last has returned, unsent or answered. */
  ghost predicate OneAtATime(cs: Calls) {
    forall j :: 0 <= j < |cs.pcs| - 1 ==> cs.pcs[j].Returned? && (HasSent(cs.pcs[j]) ==> Answered(cs.pcs[j]))
  }

  ghost predicate GateHeldByRunner(s: Serving) {
    s.machine.gate.Held? ==>
      RunsHandler(s, s.machine.gate.who) && s.machine.gate.who in s.entered && s.machine.gate.who !in s.results
  }

  ghost predicate Inv(s: Serving) {
    && SysInv(s.sys) && GateHeldByRunner(s)
    && (forall h :: h in s.results ==> h in s.entered)
    && (Unwrapped(s.sys) ==> OneAtATime(s.sys.host.calls) && s.machine.busy == {})
  }

  lemma RunnerIsUnanswered(s: Sys, h: nat) returns (k: nat)
    requires HandlerInv(s.plugin) && CallInv(s.host) && X.Inv(View(s.host, s.plugin, s.down, s.up))
    requires h < |s.plugin.handlers.pcs| && s.plugin.handlers.pcs[h] == Running
    ensures k < |s.host.calls.pcs| && HasSent(s.host.calls.pcs[k]) && !Answered(s.host.calls.pcs[k])
    ensures s.host.calls.tickets[k].request == s.plugin.handlers.jobs[h].request
    ensures s.plugin.handlers.jobs[h].request.id in s.plugin.handlers.admitted
    ensures s.plugin.handlers.admitted[s.plugin.handlers.jobs[h].request.id] == h
  {
    hide Numbering, PendingExact, SlotsCounted, ActiveOwned, AdmissionsRecorded;
    hide X.Ledger, X.RequestsOnTheWay, X.CancelsBehind, X.Located, X.RepliesOnTheWay;
    var v := View(s.host, s.plugin, s.down, s.up);
    assert X.SentRequest(v.tickets, v.issued, v.jobs[h].request);
    k := v.issued[v.jobs[h].request.id];
  }

  /** Whoever tries the gate finds it free. */
  lemma GateIsFree(s: Serving, h: nat)
    requires Inv(s) && Unwrapped(s.sys) && RunsHandler(s, h) && h !in s.entered
    ensures s.machine.gate.Free?
  {
    hide HandlerInv, CallInv, X.Inv;
    if s.machine.gate.Held? {
      var g := s.machine.gate.who;
      var kg := RunnerIsUnanswered(s.sys, g);
      var kh := RunnerIsUnanswered(s.sys, h);
      assert false;
    }
  }

  lemma OneAtATimeKept(p: PeerState, e: Event)
    requires Shaped(p) && Enabled(p, e) && OneAtATime(p.calls)
    requires e.Issue? ==>
               forall k :: 0 <= k < |p.calls.pcs| ==> p.calls.pcs[k].Returned? && p.calls.pcs[k].why in SETTLED
    ensures OneAtATime(Next(p, e).calls)
  {
    hide Shaped, Enabled, Next;
    PeerHistory.CallsGrow(p, e);
  }

  /** Only Finish, which is excluded, ends a running handler; the others stay as they are. */
  lemma RunnersKept(p: PeerState, e: Event, h: nat)
    requires Shaped(p) && SpawnPending(p.handlers, p.reader) && Enabled(p, e)
    requires h < |p.handlers.pcs| && p.handlers.pcs[h] == Running && !(e.Working? && e.h == h && e.w.Finish?)
    ensures h < |Next(p, e).handlers.pcs| && Next(p, e).handlers.pcs[h] == Running
  {
    match e
    case Issue(_, _, _) =>
    case Calling(k, c) => assert CallNext(p, k, c).handlers == p.handlers;
    case Working(_, _) =>
    case Wiring(w) =>
  }

  lemma RunnersKeptByMove(s: Sys, m: Move, h: nat)
    requires SysInv(s) && CanMove(s, m)
    requires h < |s.plugin.handlers.pcs| && s.plugin.handlers.pcs[h] == Running
    requires !(IsFinish(m) && m.e.h == h)
    ensures h < |Moved(s, m).plugin.handlers.pcs| && Moved(s, m).plugin.handlers.pcs[h] == Running
  {
    hide Sound, SendsAccounted, SpawnPending, SweepCovers, CallInv, X.Inv, Next, Enabled;
    if m.PluginMoves? {
      RunnersKept(s.plugin, m.e, h);
    }
  }

  lemma MoveKeepsOneAtATime(s: Sys, m: Move)
    requires SysInv(s) && CanMove(s, m) && Unwrapped(Moved(s, m)) && OneAtATime(s.host.calls)
    requires HostWaits(s, m, SETTLED)
    ensures OneAtATime(Moved(s, m).host.calls)
  {
    hide HandlerInv, CallInv, X.Inv, Next, Enabled, OneAtATime;
    UnwrappedBefore(s, m);
    if m.HostMoves? {
      OneAtATimeKept(s.host, m.e);
    }
  }

  lemma InvMove(s: Serving, m: Move)
    requires Inv(s) && CanMove(s.sys, m) && Disciplined(s, Wire(m), SETTLED)
    requires IsFinish(m) ==> m.e.h in s.results
    ensures Inv(s.(sys := Moved(s.sys, m)))
  {
    hide SysInv, CanMove, Moved, OneAtATime;
    SysInvStep(s.sys, m);
    if Unwrapped(Moved(s.sys, m)) {
      UnwrappedBefore(s.sys, m);
      MoveKeepsOneAtATime(s.sys, m);
    }
    if s.machine.gate.Held? {
      RunnersKeptByMove(s.sys, m, s.machine.gate.who);
    }
  }

  lemma InvAct(s: Serving, a: Act, p: Provider)
    requires Inv(s) && CanAct(s, a) && Disciplined(s, a, SETTLED)
    ensures Inv(Acted(s, a, p))
  {
    hide SysInv, CanMove, Moved, OneAtATime, Lifecycle.Begin, Lifecycle.End;
    match a
    case Wire(m) => InvMove(s, m);
    case Lock(h) =>
      if Unwrapped(s.sys) {
        GateIsFree(s, h);
      }
    case Proceed =>
    case Back(_) =>
    case Unlock =>
    case Finish(h) => InvMove(s, PluginMoves(Working(h, WorkEvent.Finish(s.results[h]))));
  }

  lemma {:induction false} RunKeepsInv(r: Session, i: nat, p: Provider)
    requires IsSession(r, SETTLED, p) && i <= |r.acts|
    ensures Inv(r.states[i])
  {
    hide SysInv, Acted, CanAct;
    if i == 0 {
      var a, b :| r.states[0] == Idle(a, b);
      StartInv(a, b);
    } else {
      RunKeepsInv(r, i - 1, p);
      InvAct(r.states[i - 1], r.acts[i - 1], p);
    }
  }

  /** A host that starts a call only after every earlier one returned, and each of those that was sent took a
      reply - cancelled or not, provider panics included - never makes a handler lose the gate. */
  lemma NeverBusy(s: Serving, p: Provider)
    requires Reached(s, SETTLED, p) && Unwrapped(s.sys)
    ensures s.machine.busy == {}
  {
    hide SysInv, Acted, CanAct, Disciplined;
    var r :| IsSession(r, SETTLED, p) && r.states[|r.acts|] == s;
    RunKeepsInv(r, |r.acts|, p);
  }

  // ---------- a host that looks at its peer ----------

  lemma {:induction false} SessionSys(r: Session, i: nat, p: Provider)
    requires IsServed(r, p) && i <= |r.acts|
    ensures SysInv(r.states[i].sys)
  {
    hide SysInv, CanMove, Moved, Lifecycle.Begin, Lifecycle.End;
    if i == 0 {
      var a, b :| r.states[0] == Idle(a, b);
      StartInv(a, b);
    } else {
      SessionSys(r, i - 1, p);
      var s, a := r.states[i - 1], r.acts[i - 1];
      if a.Wire? {
        SysInvStep(s.sys, a.m);
      } else if a.Finish? {
        SysInvStep(s.sys, PluginMoves(Working(a.h, WorkEvent.Finish(s.results[a.h]))));
      }
    }
  }

  /** A call that has returned stays as it is, and the calls before the wrap were before it all along. */
  ghost predicate Grew(s: Sys, t: Sys) {
    && |s.host.calls.pcs| <= |t.host.calls.pcs|
    && (forall k :: 0 <= k < |s.host.calls.pcs| && s.host.calls.pcs[k].Returned? ==>
          t.host.calls.pcs[k] == s.host.calls.pcs[k])
    && (Unwrapped(t) ==> Unwrapped(s))
  }

  lemma MoveGrows(s: Sys, m: Move)
    requires CanMove(s, m)
    ensures Grew(s, Moved(s, m))
  {
    hide Enabled, Next;
    if Unwrapped(Moved(s, m)) {
      UnwrappedBefore(s, m);
    }
    match m
    case HostMoves(e) => PeerHistory.CallsGrow(s.host, e);
    case PluginMoves(_) =>
  }

  lemma {:induction false} SessionGrows(r: Session, i: nat, j: nat, p: Provider)
    requires IsServed(r, p) && i <= j <= |r.acts|
    ensures Grew(r.states[i].sys, r.states[j].sys)
  {
    hide CanMove, Moved, Unwrapped, Lifecycle.Begin, Lifecycle.End;
    if i < j {
      SessionGrows(r, i, j - 1, p);
      var s, a := r.states[j - 1], r.acts[j - 1];
      if a.Wire? {
        MoveGrows(s.sys, a.m);
      } else if a.Finish? {
        MoveGrows(s.sys, PluginMoves(Working(a.h, WorkEvent.Finish(s.results[a.h]))));
      }
    }
  }

  /** The host has made n calls, every one of them is over, and its peer is open. */
  predicate SeenOpen(s: Sys, n: nat) {
    && s.host.stage == Open && |s.host.calls.pcs| == n
    && forall k :: 0 <= k < |s.host.calls.pcs| ==> s.host.calls.pcs[k].Returned?
  }

  /** Whenever the host starts a call, it has seen its peer open at some moment after the last return. */
  predicate Looks(r: Session, i: nat) {
    && i < |r.acts| && i < |r.states|
    && (r.acts[i].Wire? && r.acts[i].m.HostMoves? && r.acts[i].m.e.Issue? ==>
          exists j: nat :: j <= i && SeenOpen(r.states[j].sys, |r.states[i].sys.host.calls.pcs|))
  }

  lemma OpenIsSettled(s: Sys, n: nat)
    requires SysInv(s) && Unwrapped(s) && SeenOpen(s, n)
    ensures |s.host.calls.pcs| == n && forall k :: 0 <= k < |s.host.calls.pcs| ==> s.host.calls.pcs[k].Returned?
    ensures forall k :: 0 <= k < |s.host.calls.pcs| ==> s.host.calls.pcs[k].why in SETTLED
  {
    hide HandlerInv, X.Inv, Numbering, PendingExact;
    var cs := s.host.calls;
    forall k | 0 <= k < |cs.pcs| ensures cs.pcs[k].why in SETTLED {
      assert HasSent(cs.pcs[k]) ==> Answered(cs.pcs[k]);
    }
  }

  lemma LooksIsSettled(r: Session, i: nat, p: Provider)
    requires IsSession(r, ANYHOW, p) && i < |r.acts| && Looks(r, i) && Unwrapped(r.states[|r.acts|].sys)
    ensures Disciplined(r.states[i], r.acts[i], SETTLED)
  {
    hide CanAct, Acted, SysInv, Unwrapped, SeenOpen;
    if r.acts[i].Wire? && r.acts[i].m.HostMoves? && r.acts[i].m.e.Issue? {
      var n := |r.states[i].sys.host.calls.pcs|;
      var j: nat :| j <= i && SeenOpen(r.states[j].sys, n);
      SessionSys(r, j, p);
      SessionGrows(r, j, i, p);
      SessionGrows(r, j, |r.acts|, p);
      OpenIsSettled(r.states[j].sys, n);
    }
  }

  /** What a caller can do: look at its peer once the previous call has returned, and go on if it is open. Then no
      handler ever loses the gate, whatever closes the peer between the look and the call. */
  lemma NeverBusyIfLooking(r: Session, p: Provider)
    requires IsSession(r, ANYHOW, p) && Unwrapped(r.states[|r.acts|].sys)
    requires forall i: nat :: i < |r.acts| ==> Looks(r, i)
    ensures r.states[|r.acts|].machine.busy == {}
  {
    hide CanAct, Acted, Looks, Disciplined;
    forall i: nat | i < |r.acts| ensures Disciplined(r.states[i], r.acts[i], SETTLED) {
      LooksIsSettled(r, i, p);
    }
    assert IsSession(r, SETTLED, p);
    NeverBusy(r.states[|r.acts|], p);
  }

  // ---------- a host that goes on after an unanswered call ----------

  lemma ReachAct(s: Serving, a: Act, after: set<Exit>, p: Provider)
    requires Reached(s, after, p) && CanAct(s, a) && Disciplined(s, a, after)
    ensures Reached(Acted(s, a, p), after, p)
  {
    hide CanAct, Acted, Disciplined;
    var r :| IsSession(r, after, p) && r.states[|r.acts|] == s;
    var t := Acted(s, a, p);
    var q := Session(r.states + [t], r.acts + [a]);
    forall i | 0 <= i < |q.acts|
      ensures CanAct(q.states[i], q.acts[i]) && Disciplined(q.states[i], q.acts[i], after)
              && q.states[i + 1] == Acted(q.states[i], q.acts[i], p)
    {
      assert i < |r.acts| ==> CanAct(r.states[i], r.acts[i]) && Disciplined(r.states[i], r.acts[i], after)
                              && r.states[i + 1] == Acted(r.states[i], r.acts[i], p);
    }
    assert IsSession(q, after, p) && q.states[|q.acts|] == t;
  }

  lemma ReachStart(instance: string, after: set<Exit>, p: Provider)
    ensures Reached(Idle(instance, instance), after, p)
  {
    var s := Idle(instance, instance);
    var r := Session([s], []);
    assert IsSession(r, after, p) && r.states[|r.acts|] == s;
  }

  lemma {:induction false} ReachAlong(s: Serving, states: seq<Sys>, moves: seq<Move>, i: nat,
        after: set<Exit>, p: Provider)
    requires Reached(s, after, p) && IsPath(states, moves, after, false) && states[0] == s.sys && i <= |moves|
    ensures Reached(s.(sys := states[i]), after, p)
  {
    hide Reached, CanMove, Moved, HostWaits;
    if i == 0 {
      assert s.(sys := states[0]) == s;
    } else {
      ReachAlong(s, states, moves, i - 1, after, p);
      assert Goes(states[i - 1], moves[i - 1], states[i], after, false);
      ReachAct(s.(sys := states[i - 1]), Wire(moves[i - 1]), after, p);
    }
  }

  /** Moves of the two peers alone leave the gate and its users as they are. */
  lemma ReachLed(s: Serving, t: Sys, after: set<Exit>, p: Provider)
    requires Reached(s, after, p) && Leads(s.sys, t, after, false)
    ensures Reached(s.(sys := t), after, p)
  {
    hide Reached, Goes;
    var states, moves :| IsPath(states, moves, after, false) && states[0] == s.sys && states[|moves|] == t;
    ReachAlong(s, states, moves, |moves|, after, p);
  }

  lemma LocksGate(s: Serving, h: nat, after: set<Exit>, p: Provider) returns (t: Serving)
    requires Reached(s, after, p) && RunsHandler(s, h) && h < |s.sys.plugin.handlers.jobs| && h !in s.entered
    ensures Reached(t, after, p) && t.sys == s.sys && t.entered == s.entered + {h}
    ensures s.machine.gate.Free? ==> t.machine.gate.Held? && t.machine.busy == s.machine.busy
    ensures s.machine.gate.Held? ==> t.machine == s.machine.(busy := s.machine.busy + {h})
  {
    hide Reached;
    ReachAct(s, Lock(h), after, p);
    t := Acted(s, Lock(h), p);
  }

  /** If the host goes on after a sent call that ended unanswered: between `close(p.done)` and the closing of the
      stream the new call may still be queued, written and accepted, while the abandoned one's handler runs. */
  lemma BusyAfterUnanswered(why: Exit, after: set<Exit>, p: Provider) returns (s: Serving)
    requires why in after && (why == PeerDone || why == GaveUp)
    ensures Reached(s, after, p) && Unwrapped(s.sys) && s.machine.busy == {1}
  {
    hide Reached, Leads, Lifecycle.Begin, Lifecycle.End, RequestMessage, IdOf, WellFormed;
    ReachStart("i", after, p);
    s := Idle("i", "i");
    s := Arrives(s, 0, after, p);
    s := LocksGate(s, 0, after, p);
    LeadsNowhere(s.sys, after, false);
    RequestOfProper(0);
    var t := CallAbandoned(s.sys, s.sys, 0, why, after, false);
    ReachLed(s, t, after, p);
    s := s.(sys := t);
    IdsDiffer();
    s := Arrives(s, 1, after, p);
    s := LocksGate(s, 1, after, p);
  }

  lemma IdsDiffer()
    ensures IdOf(0) != IdOf(1)
  {
    CallIdsEqualIff("host", 0, 1);
  }

  lemma Arrives(s: Serving, n: nat, after: set<Exit>, p: Provider) returns (t: Serving)
    requires Reached(s, after, p) && Ready(s.sys, n) && HostWaits(s.sys, HostMoves(Issue("run", 1, "{}")), after)
    requires s.sys.plugin.handlers.slots < SLOTS && IdOf(n) !in s.sys.plugin.handlers.active
    ensures Reached(t, after, p) && Shaped(t.sys.host) && Shaped(t.sys.plugin)
    ensures t == s.(sys := t.sys)
    ensures t.sys == s.sys.(host := s.sys.host.(calls := t.sys.host.calls),
                            plugin := s.sys.plugin.(
                              handlers := s.sys.plugin.handlers.Admit(RequestOf(n)).Move(n, Running)))
    ensures WaitsFor(s.sys.host.calls, t.sys.host.calls, n)
  {
    hide Reached, Leads, IdOf, RequestOf, WaitsFor;
    LeadsNowhere(s.sys, after, false);
    var u := CallArrives(s.sys, s.sys, n, after, false);
    ReachLed(s, u, after, p);
    t := s.(sys := u);
  }

  ghost predicate NoneBusy(after: set<Exit>, p: Provider) {
    forall s: Serving :: Reached(s, after, p) && Unwrapped(s.sys) ==> s.machine.busy == {}
  }

  lemma SettledSession(s: Serving, after: set<Exit>, p: Provider)
    requires Reached(s, after, p) && after <= SETTLED
    ensures Reached(s, SETTLED, p)
  {
    hide CanAct, Acted;
    var r :| IsSession(r, after, p) && r.states[|r.acts|] == s;
    assert IsSession(r, SETTLED, p);
  }

  /** For a host that makes one call at a time, whichever endings of earlier calls it is content with: no handler
      can be told "lifecycle busy" if and only if it never goes on after a sent call that ended unanswered. */
  lemma NeverBusyIff(after: set<Exit>, p: Provider)
    ensures NoneBusy(after, p) <==> PeerDone !in after && GaveUp !in after
  {
    hide Reached, Unwrapped;
    if PeerDone in after {
      var s := BusyAfterUnanswered(PeerDone, after, p);
    } else if GaveUp in after {
      var s := BusyAfterUnanswered(GaveUp, after, p);
    } else {
      forall s: Serving | Reached(s, after, p) && Unwrapped(s.sys) ensures s.machine.busy == {} {
        forall why | why in after ensures why in SETTLED { assert why != PeerDone && why != GaveUp; }
        SettledSession(s, after, p);
        NeverBusy(s, p);
      }
    }
  }
}
