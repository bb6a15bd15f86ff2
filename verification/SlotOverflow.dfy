/**
 How many calls a host may make before the plugin can run out of slots. A handler queues its reply before it
 frees its slot, so a host that waits for every reply is not safe; one that makes eight calls in all is.
 */
module SlotOverflow {
  import opened Basics
  import opened Envelope
  import opened PeerModel
  import opened PeerInvariants
  import opened PeerRuns
  import opened Duplex
  import D = DuplexRuns
  import opened SerialHost

  // ---------- at most eight calls ----------

  /** The first n jobs run as many different calls. */
  lemma {:induction false} JobsFromCalls(v: X.Exchange, n: nat) returns (ks: set<nat>)
    requires X.Inv(v) && n <= |v.jobs|
    ensures |ks| == n
    ensures forall k :: k in ks ==>
              && k < |v.tickets| && v.tickets[k].request.id in v.admitted
              && v.admitted[v.tickets[k].request.id] < n
  {
    hide X.RequestsOnTheWay, X.CancelsBehind, X.Located, X.RepliesOnTheWay, X.AnswersMatch, X.ResponsesShaped;
    if n == 0 {
      ks := {};
    } else {
      ks := JobsFromCalls(v, n - 1);
      var k := v.issued[v.jobs[n - 1].request.id];
      assert X.SentRequest(v.tickets, v.issued, v.jobs[n - 1].request);
      assert k !in ks;
      ks := ks + {k};
    }
  }

  /** A request that is still to be dispatched is one more call than those accepted so far. */
  lemma FewerJobsThanCalls(v: X.Exchange)
    requires X.Inv(v) && v.fwd != [] && IsRequest(v.fwd[0])
    ensures |v.jobs| < |v.tickets|
  {
    var ks := JobsFromCalls(v, |v.jobs|);
    var k := v.issued[v.fwd[0].id];
    assert X.SentRequest(v.tickets, v.issued, v.fwd[0]) && v.fwd[0].id !in v.admitted;
    hide X.Inv;
    SubsetSize(ks + {k}, UpTo(|v.tickets|));
  }

  lemma SlotsBelowJobs(hs: Handlers)
    requires Sound(hs)
    ensures hs.slots <= |hs.jobs|
  {
    hide ActiveOwned, Responses, AdmissionsRecorded;
    SubsetSize(Live(hs.pcs), UpTo(|hs.pcs|));
  }

  lemma FullIfRefused(p: PeerState, m: Message)
    ensures RefusedForSlots(p, m) ==> p.handlers.slots >= SLOTS
  {
    hide WellFormed;
  }

  /** While a peer has made at most eight calls in all, the other side never refuses a request of its for want of
      a slot, whatever else happens. */
  lemma EightCallsFit(s: D.Sys, x: PeerState, y: PeerState)
    requires D.Reachable(s) && D.Unwrapped(s) && D.Facing(s, x, y) && |x.calls.tickets| <= SLOTS
    requires y.reader.Holding? && IsRequest(y.reader.held)
    ensures y.handlers.slots < SLOTS && !RefusedForSlots(y, y.reader.held)
  {
    hide D.Reachable;
    var xy, yx := D.Facts(s, x, y);
    hide X.Inv, CallInv, Sound, SendsAccounted, SpawnPending, SweepCovers, FiredExist, WellFormed;
    D.HeadOfFlow(y, x, xy);
    FewerJobsThanCalls(View(x, y, xy, yx));
    SlotsBelowJobs(y.handlers);
    FullIfRefused(y, y.reader.held);
    hide RefusedForSlots;
  }

  // ---------- nine calls, one at a time ----------

  function ReplyTo(n: nat): Message { ResponseMessage("i", IdOf(n), Value("1")) }

  /** The host has made n calls one at a time and taken every reply; all n handlers have queued theirs, and none
      has freed its slot. */
  ghost predicate Lingering(s: D.Sys, n: nat) {
    && Ready(s, n) && s.host.stage == Open && s.host.reader == Reading && s.up == [] && s.plugin.out == []
    && |s.host.calls.tickets| == n && s.plugin.calls.tickets == []
    && (forall k :: 0 <= k < n ==> s.host.calls.pcs[k] == Returned(Took) && s.host.calls.tickets[k].taken.Some?)
    && (forall h :: 0 <= h < n ==> s.plugin.handlers.pcs[h] == Releasing)
    && s.plugin.handlers.slots == n && s.plugin.handlers.active == map[]
  }

  const TAKEN := {Took}

  lemma HandlerReplies(s0: D.Sys, s: D.Sys, n: nat) returns (t: D.Sys)
    requires Leads(s0, s, TAKEN, true) && Shaped(s.plugin) && s.plugin.instance == "i" && s.plugin.out == []
    requires |s.plugin.handlers.pcs| == |s.plugin.handlers.jobs| == n + 1 && s.plugin.handlers.pcs[n] == Running
    requires s.plugin.handlers.jobs[n].request.id == IdOf(n)
    ensures Leads(s0, t, TAKEN, true) && Shaped(t.plugin)
    ensures t == s.(plugin := s.plugin.(out := [ReplyTo(n)], handlers := t.plugin.handlers))
    ensures var hs, ht := s.plugin.handlers, t.plugin.handlers;
            ht.pcs == hs.pcs[n := Releasing] && ht.slots == hs.slots && ht.active == hs.active - {IdOf(n)}
  {
    hide Leads, Shaped, IdOf, ResponseMessage;
    t := PluginActs(s0, s, Working(n, WorkEvent.Finish(Value("1"))), TAKEN, true);
    t := PluginActs(s0, t, Working(n, Reply), TAKEN, true);
    assert [] + [ReplyTo(n)] == [ReplyTo(n)];
    t := PluginActs(s0, t, Working(n, Forget), TAKEN, true);
  }

  lemma PluginWrites(s0: D.Sys, s: D.Sys, m: Message) returns (t: D.Sys)
    requires Leads(s0, s, TAKEN, true) && Shaped(s.plugin) && StreamUsable(s.plugin)
    requires s.plugin.out == [m] && s.plugin.writer == Polling && s.up == []
    ensures Leads(s0, t, TAKEN, true) && Shaped(t.plugin) && t == s.(plugin := s.plugin.(out := []), up := [m])
  {
    hide Leads, Shaped;
    t := PluginActs(s0, s, Wiring(Fetch), TAKEN, true);
    t := PluginActs(s0, t, Wiring(Write), TAKEN, true);
  }

  lemma ReplyDelivered(s0: D.Sys, s: D.Sys, n: nat) returns (t: D.Sys)
    requires Leads(s0, s, TAKEN, true) && Shaped(s.host) && s.host.instance == "i"
    requires s.host.reader == Reading && s.host.stage == Open && s.up == [ReplyTo(n)]
    requires s.host.calls.pending == map[IdOf(n) := n] && n < |s.host.calls.tickets|
             && s.host.calls.tickets[n].slot.None?
    ensures Leads(s0, t, TAKEN, true) && Shaped(t.host)
    ensures t == s.(host := s.host.(calls := s.host.calls.Offer(n, ReplyTo(n))), up := [])
  {
    assert WellFormed(ReplyTo(n), "i") && ReplyTo(n).reply && ReplyTo(n).id == IdOf(n);
    hide Leads, Shaped, IdOf, ResponseMessage, WellFormed, ReplyTo;
    t := HostActs(s0, s, Wiring(Receive(ReplyTo(n))), TAKEN, true);
    t := HostActs(s0, t, Wiring(Dispatch), TAKEN, true);
    t := HostActs(s0, t, Wiring(Deliver), TAKEN, true);
  }

  lemma ReplyTaken(s0: D.Sys, s: D.Sys, n: nat) returns (t: D.Sys)
    requires Leads(s0, s, TAKEN, true) && Shaped(s.host)
    requires |s.host.calls.pcs| == |s.host.calls.tickets| == n + 1 && s.host.calls.pcs[n] == Waiting
    requires s.host.calls.tickets[n].slot.Some? && s.host.calls.tickets[n].request.id == IdOf(n)
    requires s.host.calls.pending == map[IdOf(n) := n]
    ensures Leads(s0, t, TAKEN, true) && Shaped(t.host) && t == s.(host := s.host.(calls := t.host.calls))
    ensures var cs, ct := s.host.calls, t.host.calls;
            && ct.serial == cs.serial && ct.pending == map[] && ct.pcs == cs.pcs[n := Returned(Took)]
            && |ct.tickets| == n + 1 && ct.tickets[n].taken.Some? && ct.tickets[..n] == cs.tickets[..n]
  {
    hide Leads, Shaped, IdOf;
    t := HostActs(s0, s, Calling(n, Take), TAKEN, true);
    t := HostActs(s0, t, Calling(n, Return), TAKEN, true);
    assert map[IdOf(n) := n] - {IdOf(n)} == map[];
  }

  /** One more round: call, accept, reply, take; the handler lingers. */
  lemma OneMoreRound(s0: D.Sys, s: D.Sys, n: nat) returns (t: D.Sys)
    requires Leads(s0, s, TAKEN, true) && Lingering(s, n) && n < SLOTS
    ensures Leads(s0, t, TAKEN, true) && Lingering(t, n + 1)
  {
    RequestOfProper(n);
    hide Leads, IdOf, WellFormed, RequestOf;
    t := CallArrives(s0, s, n, TAKEN, true);
    assert s.host.calls.Shaped() && s.plugin.handlers.Shaped();
    hide Shaped;
    ghost var hs := t.plugin.handlers;
    assert hs.pcs == s.plugin.handlers.pcs + [Running];
    t := HandlerReplies(s0, t, n);
    t := PluginWrites(s0, t, ReplyTo(n));
    t := ReplyDelivered(s0, t, n);
    t := ReplyTaken(s0, t, n);
  }

  lemma {:induction false} Rounds(n: nat) returns (s: D.Sys)
    requires n <= SLOTS
    ensures Leads(D.Start("i", "i"), s, TAKEN, true) && Lingering(s, n)
  {
    hide Leads, Lingering;
    if n == 0 {
      s := D.Start("i", "i");
      LeadsNowhere(s, TAKEN, true);
      assert Lingering(s, 0) by { StartLingers(); }
    } else {
      s := Rounds(n - 1);
      s := OneMoreRound(D.Start("i", "i"), s, n - 1);
    }
  }

  lemma StartLingers()
    ensures Lingering(D.Start("i", "i"), 0)
  {
  }

  // ---------- the exact number ----------

  /** What a run of the joined peers reaches when the host starts each call only after the one before it returned
      with its reply. */
  ghost predicate ReachedWaiting(s: D.Sys) { exists a, b :: Leads(D.Start(a, b), s, TAKEN, true) }

  lemma {:induction false} PathReachable(states: seq<D.Sys>, moves: seq<D.Move>, i: nat)
    requires IsPath(states, moves, TAKEN, true) && i <= |moves| && exists a, b :: states[0] == D.Start(a, b)
    ensures D.Reachable(states[i])
  {
    var r := D.Run(states[..i + 1], moves[..i]);
    forall j | 0 <= j < i
      ensures D.CanMove(r.states[j], r.moves[j]) && r.states[j + 1] == D.Moved(r.states[j], r.moves[j])
    {
      assert Goes(states[j], moves[j], states[j + 1], TAKEN, true);
    }
    hide D.CanMove, D.Moved;
    assert D.IsRun(r) && r.states[|r.moves|] == states[i];
  }

  lemma WaitingIsReachable(s: D.Sys)
    requires ReachedWaiting(s)
    ensures D.Reachable(s)
  {
    hide Goes, D.Reachable;
    var a, b :| Leads(D.Start(a, b), s, TAKEN, true);
    var states, moves :| IsPath(states, moves, TAKEN, true) && states[0] == D.Start(a, b) && states[|moves|] == s;
    PathReachable(states, moves, |moves|);
  }

  /** The plugin's reader holds a proper new request of the host, and refuses it for want of a slot. */
  ghost predicate Overflows(s: D.Sys) {
    s.plugin.reader.Holding? && RefusedForSlots(s.plugin, s.plugin.reader.held)
  }

  /** The host took eight replies one after the other, and its ninth call costs it the connection. */
  lemma NinthCallRefused() returns (s: D.Sys)
    ensures ReachedWaiting(s) && Overflows(s) && |s.host.calls.tickets| == SLOTS + 1 && D.Unwrapped(s)
    ensures |s.host.calls.pcs| == SLOTS + 1
    ensures forall k :: 0 <= k < SLOTS ==> s.host.calls.pcs[k] == Returned(Took) && s.host.calls.tickets[k].taken.Some?
  {
    hide Leads, IdOf, RequestOf, WellFormed;
    s := Rounds(SLOTS);
    ghost var before := s.host.calls;
    RequestOfProper(SLOTS);
    var t := CallReachesReader(D.Start("i", "i"), s, SLOTS, TAKEN, true);
    hide Shaped;
    assert forall k :: 0 <= k < SLOTS ==> t.host.calls.tickets[k] == t.host.calls.tickets[..SLOTS][k];
    s := t;
  }

  lemma OverflowIsRequest(s: D.Sys)
    requires Overflows(s)
    ensures IsRequest(s.plugin.reader.held)
  {
  }

  ghost predicate OverflowsWithin(n: nat) {
    exists s: D.Sys :: ReachedWaiting(s) && D.Unwrapped(s) && |s.host.calls.tickets| <= n && Overflows(s)
  }

  /** For a host that makes one call at a time and takes every reply: with n calls it can lose the connection for
      want of a slot if and only if n is at least 9. Bounding the calls outstanding at any time does not help. */
  lemma OverflowFromNine(n: nat)
    ensures OverflowsWithin(n) <==> n >= SLOTS + 1
  {
    hide ReachedWaiting, RefusedForSlots;
    if n >= SLOTS + 1 {
      var s := NinthCallRefused();
    }
    forall s: D.Sys | ReachedWaiting(s) && D.Unwrapped(s) && |s.host.calls.tickets| <= SLOTS ensures !Overflows(s) {
      WaitingIsReachable(s);
      if Overflows(s) {
        OverflowIsRequest(s);
        EightCallsFit(s, s.host, s.plugin);
      }
    }
  }
}
