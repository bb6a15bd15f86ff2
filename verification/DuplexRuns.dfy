/** Whole runs of two joined peers, and what holds in every state they reach. */
module DuplexRuns {
  import opened Basics
  import opened Envelope
  import opened PeerModel
  import opened PeerInvariants
  import opened Duplex

  datatype Sys = Sys(host: PeerState, plugin: PeerState, down: seq<Message>, up: seq<Message>)

  datatype Move = HostMoves(e: Event) | PluginMoves(e: Event)

  function Start(hostInstance: string, pluginInstance: string): Sys {
    Sys(Fresh(hostInstance, "host"), Fresh(pluginInstance, "plugin"), [], [])
  }

  ghost predicate CanMove(s: Sys, m: Move) {
    match m
    case HostMoves(e) => CanStep(s.host, s.up, e)
    case PluginMoves(e) => CanStep(s.plugin, s.down, e)
  }

  function Moved(s: Sys, m: Move): Sys
    requires CanMove(s, m)
  {
    match m
    case HostMoves(e) => Sys(Next(s.host, e), s.plugin, LinkOut(s.host, s.down, e), LinkIn(s.up, e))
    case PluginMoves(e) => Sys(s.host, Next(s.plugin, e), LinkIn(s.down, e), LinkOut(s.plugin, s.up, e))
  }

  datatype Run = Run(states: seq<Sys>, moves: seq<Move>)

  ghost predicate IsRun(r: Run) {
    && |r.states| == |r.moves| + 1
    && (exists a, b :: r.states[0] == Start(a, b))
    && (forall i :: 0 <= i < |r.moves| ==>
          CanMove(r.states[i], r.moves[i]) && r.states[i + 1] == Moved(r.states[i], r.moves[i]))
  }

  ghost predicate Reachable(s: Sys) {
    exists r :: IsRun(r) && r.states[|r.moves|] == s
  }

  /** No more calls than the uint64 serial can number. */
  predicate Unwrapped(s: Sys) { |s.host.calls.tickets| <= WRAP && |s.plugin.calls.tickets| <= WRAP }

  ghost predicate SysInv(s: Sys) {
    && HandlerInv(s.host) && HandlerInv(s.plugin)
    && (Unwrapped(s) ==>
          && CallInv(s.host) && CallInv(s.plugin)
          && X.Inv(View(s.host, s.plugin, s.down, s.up)) && X.Inv(View(s.plugin, s.host, s.up, s.down)))
  }

  lemma FreshExchange(cut: bool)
    ensures X.Inv(X.Exchange([], map[], [], map[], [], [], cut))
  {
  }

  lemma StartInv(a: string, b: string)
    ensures SysInv(Start(a, b))
  {
    hide HandlerInv, CallInv, X.Inv;
    var s := Start(a, b);
    FreshHandlers(s.host);
    FreshHandlers(s.plugin);
    FreshCalls(s.host);
    FreshCalls(s.plugin);
    FreshExchange(false);
  }

  lemma PairStep(x: PeerState, y: PeerState, xy: seq<Message>, yx: seq<Message>, e: Event)
    requires CanStep(x, yx, e) && HandlerInv(x) && CallInv(x) && |Next(x, e).calls.tickets| <= WRAP
    requires X.Inv(View(x, y, xy, yx)) && X.Inv(View(y, x, yx, xy))
    ensures CallInv(Next(x, e))
    ensures X.Inv(View(Next(x, e), y, LinkOut(x, xy, e), LinkIn(yx, e)))
    ensures X.Inv(View(y, Next(x, e), LinkIn(yx, e), LinkOut(x, xy, e)))
  {
    hide X.Inv, Numbering, PendingExact, Progress, Settled, SlotsCounted, ActiveOwned, AdmissionsRecorded;
    hide CallNext, WorkNext, WireNext;
    CallInvNext(x, e);
    match e
    case Issue(_, _, _) => IssueStep(x, y, xy, yx, e);
    case Calling(k, c) => CallStep(x, y, xy, yx, k, c);
    case Working(h, w) => WorkStep(x, y, xy, yx, h, w);
    case Wiring(w) => WireStep(x, y, xy, yx, w);
  }

  lemma SysInvStep(s: Sys, m: Move)
    requires SysInv(s) && CanMove(s, m)
    ensures SysInv(Moved(s, m))
  {
    hide X.Inv, HandlerInv, CallInv, Enabled, Next;
    var t := Moved(s, m);
    match m
    case HostMoves(e) => {
      HandlerInvNext(s.host, e);
      TicketsGrow(s.host, e);
      if Unwrapped(t) {
        PairStep(s.host, s.plugin, s.down, s.up, e);
      }
    }
    case PluginMoves(e) => {
      HandlerInvNext(s.plugin, e);
      TicketsGrow(s.plugin, e);
      if Unwrapped(t) {
        PairStep(s.plugin, s.host, s.up, s.down, e);
      }
    }
  }

  lemma {:induction false} RunInv(r: Run, i: nat)
    requires IsRun(r) && i <= |r.moves|
    ensures SysInv(r.states[i])
  {
    hide SysInv, CanMove, Moved;
    if i == 0 {
      var a, b :| r.states[0] == Start(a, b);
      StartInv(a, b);
    } else {
      RunInv(r, i - 1);
      SysInvStep(r.states[i - 1], r.moves[i - 1]);
    }
  }

  /** The invariant holds in every reachable state. */
  lemma ReachableInv(s: Sys)
    requires Reachable(s)
    ensures SysInv(s)
  {
    hide SysInv, CanMove, Moved;
    var r :| IsRun(r) && r.states[|r.moves|] == s;
    RunInv(r, |r.moves|);
  }

  /** x calls and y answers: the host and the plugin, or the other way round. */
  predicate Facing(s: Sys, x: PeerState, y: PeerState) {
    (x == s.host && y == s.plugin) || (x == s.plugin && y == s.host)
  }

  lemma FactsOf(s: Sys, x: PeerState, y: PeerState) returns (xy: seq<Message>, yx: seq<Message>)
    requires SysInv(s) && Unwrapped(s) && Facing(s, x, y)
    ensures HandlerInv(x) && HandlerInv(y) && CallInv(x) && CallInv(y)
    ensures X.Inv(View(x, y, xy, yx)) && X.Inv(View(y, x, yx, xy))
  {
    hide X.Inv, HandlerInv, CallInv;
    if x == s.host && y == s.plugin {
      xy, yx := s.down, s.up;
    } else {
      xy, yx := s.up, s.down;
    }
  }

  lemma Facts(s: Sys, x: PeerState, y: PeerState) returns (xy: seq<Message>, yx: seq<Message>)
    requires Reachable(s) && Unwrapped(s) && Facing(s, x, y)
    ensures HandlerInv(x) && HandlerInv(y) && CallInv(x) && CallInv(y)
    ensures X.Inv(View(x, y, xy, yx)) && X.Inv(View(y, x, yx, xy))
  {
    hide SysInv, X.Inv, HandlerInv, CallInv;
    ReachableInv(s);
    xy, yx := FactsOf(s, x, y);
  }

  // ---------- exactly-once matched replies ----------

  lemma AnsweredBy(s: Sys, x: PeerState, y: PeerState, k: nat) returns (h: nat)
    requires SysInv(s) && Unwrapped(s) && Facing(s, x, y)
    requires k < |x.calls.tickets| && x.calls.tickets[k].taken.Some?
    ensures var r := x.calls.tickets[k].request;
            var hs := y.handlers;
            && h < |hs.jobs| == |hs.pcs| && hs.jobs[h] == Job(r, x.calls.tickets[k].taken, true) && PastSend(hs.pcs[h])
            && forall i :: 0 <= i < |hs.jobs| && hs.jobs[i].request.id == r.id ==> i == h
  {
    var xy, yx := FactsOf(s, x, y);
    hide Numbering, PendingExact, Settled, SlotsCounted, ActiveOwned, AdmissionsRecorded;
    var v := View(x, y, xy, yx);
    assert X.AnswersMatch(v.tickets, v.jobs, v.admitted) && X.JobsMatch(v.tickets, v.issued, v.jobs, v.admitted);
    h := v.admitted[x.calls.tickets[k].request.id];
    assert y.handlers.jobs[h].queued;
  }

  /** A reply a call took is the response computed, by the only handler that ever ran that request, for that
      very request; and that handler has left its function. */
  lemma RepliesMatch(s: Sys, x: PeerState, y: PeerState, k: nat)
    requires Reachable(s) && Unwrapped(s) && Facing(s, x, y)
    requires k < |x.calls.tickets| && x.calls.tickets[k].taken.Some?
    ensures var r := x.calls.tickets[k].request;
            var hs := y.handlers;
            exists h :: 0 <= h < |hs.jobs| == |hs.pcs|
              && hs.jobs[h] == Job(r, x.calls.tickets[k].taken, true) && PastSend(hs.pcs[h])
              && forall i :: 0 <= i < |hs.jobs| && hs.jobs[i].request.id == r.id ==> i == h
  {
    hide SysInv, Unwrapped;
    ReachableInv(s);
    var h := AnsweredBy(s, x, y, k);
  }

  /** Once a call took a reply, that is the one it keeps, whatever arrives later. */
  lemma TakenKept(x: PeerState, e: Event, k: nat)
    requires Shaped(x) && Enabled(x, e) && Progress(x.calls)
    requires k < |x.calls.tickets| && x.calls.tickets[k].taken.Some?
    ensures k < |Next(x, e).calls.tickets| && Next(x, e).calls.tickets[k].taken == x.calls.tickets[k].taken
  {
    match e
    case Issue(_, _, _) =>
    case Calling(j, c) =>
      if j == k {
        assert Answered(x.calls.pcs[k]);
      }
    case Working(h, w) => assert WorkNext(x, h, w).calls == x.calls;
    case Wiring(w) =>
  }

  /** What the k-th call of the host, or of the plugin, has taken. */
  function TakenBy(s: Sys, byHost: bool, k: nat): Option<Message> {
    var tickets := if byHost then s.host.calls.tickets else s.plugin.calls.tickets;
    if k < |tickets| then tickets[k].taken else None
  }

  lemma TakenKeptByMove(s: Sys, m: Move, byHost: bool, k: nat)
    requires SysInv(s) && CanMove(s, m) && Unwrapped(Moved(s, m)) && TakenBy(s, byHost, k).Some?
    ensures TakenBy(Moved(s, m), byHost, k) == TakenBy(s, byHost, k)
  {
    hide HandlerInv, X.Inv, Enabled, Next, Numbering, PendingExact, Progress;
    match m
    case HostMoves(e) => {
      TicketsGrow(s.host, e);
      if byHost {
        TakenKept(s.host, e, k);
      }
    }
    case PluginMoves(e) => {
      TicketsGrow(s.plugin, e);
      if !byHost {
        TakenKept(s.plugin, e, k);
      }
    }
  }

  lemma UnwrappedBefore(s: Sys, m: Move)
    requires CanMove(s, m) && Unwrapped(Moved(s, m))
    ensures Unwrapped(s)
  {
    hide Enabled, Next;
    match m
    case HostMoves(e) => TicketsGrow(s.host, e);
    case PluginMoves(e) => TicketsGrow(s.plugin, e);
  }

  /** A call takes at most one reply in a whole run. */
  lemma {:induction false} TakenOnce(r: Run, i: nat, j: nat, byHost: bool, k: nat)
    requires IsRun(r) && i <= j <= |r.moves| && Unwrapped(r.states[j])
    requires TakenBy(r.states[i], byHost, k).Some?
    ensures TakenBy(r.states[j], byHost, k) == TakenBy(r.states[i], byHost, k)
  {
    hide SysInv, CanMove, Moved, Unwrapped, TakenBy;
    if i < j {
      UnwrappedBefore(r.states[j - 1], r.moves[j - 1]);
      TakenOnce(r, i, j - 1, byHost, k);
      RunInv(r, j - 1);
      TakenKeptByMove(r.states[j - 1], r.moves[j - 1], byHost, k);
    }
  }

  // ---------- branches that honest peers never take ----------

  lemma HeadOfFlow(x: PeerState, y: PeerState, yx: seq<Message>)
    requires Hand(x.reader) != []
    ensures Flow(y, yx, x) != [] && Flow(y, yx, x)[0] == Hand(x.reader)[0]
  {
  }

  lemma AwaitedIsPending(p: PeerState, k: nat)
    requires CallInv(p) && p.stage == Open
    requires k < |p.calls.tickets| && p.calls.tickets[k].sent && p.calls.tickets[k].taken.None?
    ensures p.calls.tickets[k].request.id in p.calls.pending && p.calls.pending[p.calls.tickets[k].request.id] == k
  {
    hide Numbering;
    assert HasSent(p.calls.pcs[k]) && !Answered(p.calls.pcs[k]);
  }

  /** The reader never finds a reply channel full, a request identifier active, or - while its peer is
      open - a reply that no call is waiting for. */
  lemma ReaderBranches(s: Sys, x: PeerState, y: PeerState)
    requires Reachable(s) && Unwrapped(s) && Facing(s, x, y)
    ensures x.reader.Delivering? ==> x.reader.call < |x.calls.tickets| && x.calls.tickets[x.reader.call].slot.None?
    ensures x.reader.Holding? && x.reader.held.reply && x.stage == Open ==> x.reader.held.id in x.calls.pending
    ensures x.reader.Holding? && IsRequest(x.reader.held) ==> x.reader.held.id !in x.handlers.active
  {
    hide Reachable;
    var xy, yx := Facts(s, x, y);
    hide X.Inv, Sound, Numbering, PendingExact, Progress, SendsAccounted, SpawnPending, SweepCovers;
    if x.reader.Delivering? {
      DeliverStep(x, y, xy, yx);
    } else if x.reader.Holding? {
      HeadOfFlow(x, y, yx);
      var m := x.reader.held;
      if m.reply {
        HeadReplyIsAwaited(View(x, y, xy, yx));
        if x.stage == Open {
          AwaitedIsPending(x, x.calls.issued[m.id]);
        }
      } else if IsRequest(m) {
        HeadRequestIsNew(View(y, x, yx, xy));
        ActiveAdmitted(x.handlers);
      }
    }
  }

  lemma HeadRequestIsNew(w: X.Exchange)
    requires X.Inv(w) && w.fwd != [] && IsRequest(w.fwd[0])
    ensures w.fwd[0].id !in w.admitted
  {
    hide X.Ledger, X.JobsMatch, X.CancelsBehind, X.Located, X.RepliesOnTheWay, X.AnswersMatch;
  }

  lemma HeadReplyIsAwaited(v: X.Exchange)
    requires X.Inv(v) && v.bwd != [] && v.bwd[0].reply
    ensures var id := v.bwd[0].id;
            && id in v.issued && v.issued[id] < |v.tickets|
            && v.tickets[v.issued[id]].request.id == id && v.tickets[v.issued[id]].sent
            && v.tickets[v.issued[id]].taken.None?
  {
    hide X.RequestsOnTheWay, X.CancelsBehind, X.Located, X.AnswersMatch;
    var m := v.bwd[0];
    assert X.QueuedResponse(v.jobs, v.admitted, m);
    assert X.SentRequest(v.tickets, v.issued, v.jobs[v.admitted[m.id]].request);
  }

  lemma ActiveAdmitted(hs: Handlers)
    requires Sound(hs)
    ensures forall id :: id in hs.active ==> id in hs.admitted
  {
    hide SlotsCounted, Responses;
  }

  // ---------- settled or closed ----------

  ghost function Outstanding(p: PeerState): set<nat> {
    set k: nat | k < |p.calls.tickets| && p.calls.tickets[k].sent && p.calls.tickets[k].taken.None?
  }

  lemma InjectionSize(a: set<nat>, f: map<nat, string>, b: set<string>)
    requires f.Keys == a && f.Values <= b && forall i, j :: i in a && j in a && f[i] == f[j] ==> i == j
    ensures |a| <= |b|
  {
    if a != {} {
      var i :| i in a;
      var g := f - {i};
      assert g.Values <= b - {f[i]} by {
        forall v | v in g.Values ensures v in b - {f[i]} {
          var j :| j in g && g[j] == v;
          assert f[j] == v && v in f.Values;
        }
      }
      assert f[i] in f.Values;
      InjectionSize(a - {i}, g, b - {f[i]});
    }
  }

  lemma OutstandingBounded(p: PeerState)
    requires CallInv(p) && p.stage == Open
    ensures |Outstanding(p)| <= QUEUE
  {
    var cs := p.calls;
    var f := map k | k in Outstanding(p) :: cs.tickets[k].request.id;
    forall k | k in Outstanding(p)
      ensures f[k] in cs.pending && cs.pending[f[k]] == k
    {
      hide Numbering, PendingExact, Progress;
      AwaitedIsPending(p, k);
    }
    hide Numbering, PendingExact, Progress;
    InjectionSize(Outstanding(p), f, cs.pending.Keys);
  }

  /** While a peer is open, every sent and unanswered call is in `pending`, at most 32 of them; and a call
      that has ended after its request entered `out` took a reply, or the peer was closed. */
  lemma SettledOrClosed(s: Sys, x: PeerState, y: PeerState)
    requires Reachable(s) && Unwrapped(s) && Facing(s, x, y)
    ensures x.calls.Shaped()
    ensures x.stage == Open ==>
      && |Outstanding(x)| <= QUEUE
      && forall k :: k in Outstanding(x) ==>
           x.calls.tickets[k].request.id in x.calls.pending && x.calls.pending[x.calls.tickets[k].request.id] == k
    ensures forall k :: 0 <= k < |x.calls.pcs| && Ended(x.calls.pcs[k]) && x.calls.tickets[k].sent ==>
      x.calls.tickets[k].taken.Some? || x.stage != Open
  {
    hide Reachable;
    var xy, yx := Facts(s, x, y);
    hide X.Inv, HandlerInv, Numbering;
    if x.stage == Open {
      OutstandingBounded(x);
      forall k | k in Outstanding(x)
        ensures x.calls.tickets[k].request.id in x.calls.pending && x.calls.pending[x.calls.tickets[k].request.id] == k
      {
        AwaitedIsPending(x, k);
      }
    }
    hide PendingExact;
  }

  // ---------- no lost cancel ----------

  /** An accepted request's handler can be cancelled through `active`, or has sent its reply, or could not
      because the peer is closed. */
  lemma CancelFinds(p: PeerState, id: string)
    requires HandlerInv(p) && id in p.handlers.admitted
    ensures var hs := p.handlers;
            var h := hs.admitted[id];
            && h < |hs.jobs| && hs.jobs[h].request.id == id
            && ((id in hs.active && hs.active[id] == h) || hs.jobs[h].queued || p.stage != Open)
  {
    hide SlotsCounted, Responses;
    var h := p.handlers.admitted[id];
    assert InActive(p.handlers.pcs[h]) || PastSend(p.handlers.pcs[h]);
  }

  /** When a reader processes a cancel, its request was accepted; and the handler's cancel function is in
      `active` and fires, or the handler has queued its reply, or this peer is closed. */
  lemma NoLostCancel(s: Sys, x: PeerState, y: PeerState)
    requires Reachable(s) && Unwrapped(s) && Facing(s, x, y)
    requires x.reader.Holding? && WellFormed(x.reader.held, x.instance) && IsCancel(x.reader.held)
    ensures var hs, m := x.handlers, x.reader.held;
            && m.id in hs.admitted && hs.admitted[m.id] < |hs.jobs| && hs.jobs[hs.admitted[m.id]].request.id == m.id
            && (|| hs.admitted[m.id] in Dispatched(x, m).handlers.fired
                || hs.jobs[hs.admitted[m.id]].queued
                || x.stage != Open)
  {
    hide Reachable;
    var xy, yx := Facts(s, x, y);
    hide X.Inv, CallInv, HandlerInv;
    var m := x.reader.held;
    HeadOfFlow(x, y, yx);
    HeadCancelIsAdmitted(View(y, x, yx, xy));
    CancelFinds(x, m.id);
    assert m.verb == CANCEL && !m.reply;
  }

  lemma HeadCancelIsAdmitted(w: X.Exchange)
    requires X.Inv(w) && w.fwd != [] && IsCancel(w.fwd[0])
    ensures w.fwd[0].id in w.admitted
    ensures w.admitted[w.fwd[0].id] < |w.jobs| && w.jobs[w.admitted[w.fwd[0].id]].request.id == w.fwd[0].id
  {
    hide X.Ledger, X.RequestsOnTheWay, X.Located, X.RepliesOnTheWay, X.AnswersMatch;
    assert w.fwd[..0] == [];
  }
}
