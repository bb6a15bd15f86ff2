/**
 A host that makes one call at a time: it starts a call only when every earlier one has returned, in one of
 the ways it is content with. The stretches of runs built here are the ones that its guarantees stop at.
 */
module SerialHost {
  import opened Basics
  import opened Envelope
  import opened PeerModel
  import opened Duplex
  import opened DuplexRuns

  /** A new call of the host starts only after every earlier one has returned in a way listed in `after`. */
  predicate HostWaits(s: Sys, m: Move, after: set<Exit>) {
    m.HostMoves? && m.e.Issue? ==>
      forall k :: 0 <= k < |s.host.calls.pcs| ==> s.host.calls.pcs[k].Returned? && s.host.calls.pcs[k].why in after
  }

  predicate IsFinish(m: Move) { m.PluginMoves? && m.e.Working? && m.e.w.Finish? }

  /** One move; `finish` says whether handlers may come to an end by themselves. */
  ghost predicate Goes(s: Sys, m: Move, t: Sys, after: set<Exit>, finish: bool) {
    CanMove(s, m) && HostWaits(s, m, after) && (finish || !IsFinish(m)) && t == Moved(s, m)
  }

  ghost predicate IsPath(states: seq<Sys>, moves: seq<Move>, after: set<Exit>, finish: bool) {
    && |states| == |moves| + 1
    && forall i :: 0 <= i < |moves| ==> Goes(states[i], moves[i], states[i + 1], after, finish)
  }

  ghost predicate Leads(s: Sys, t: Sys, after: set<Exit>, finish: bool) {
    exists states, moves :: IsPath(states, moves, after, finish) && states[0] == s && states[|moves|] == t
  }

  lemma LeadsNowhere(s: Sys, after: set<Exit>, finish: bool)
    ensures Leads(s, s, after, finish)
  {
    assert IsPath([s], [], after, finish);
  }

  lemma LeadsStep(s: Sys, t: Sys, m: Move, after: set<Exit>, finish: bool)
    requires Leads(s, t, after, finish)
    requires CanMove(t, m) && HostWaits(t, m, after) && (finish || !IsFinish(m))
    ensures Leads(s, Moved(t, m), after, finish)
  {
    assert Goes(t, m, Moved(t, m), after, finish);
    hide Goes;
    var states, moves :| IsPath(states, moves, after, finish) && states[0] == s && states[|moves|] == t;
    var u, ms := states + [Moved(t, m)], moves + [m];
    forall i | 0 <= i < |ms| ensures Goes(u[i], ms[i], u[i + 1], after, finish) {
      assert i < |moves| ==> Goes(states[i], moves[i], states[i + 1], after, finish);
    }
    assert IsPath(u, ms, after, finish) && u[0] == s && u[|ms|] == Moved(t, m);
  }

  // ---------- one move of either side ----------

  lemma HostActs(s0: Sys, s: Sys, e: Event, after: set<Exit>, finish: bool) returns (t: Sys)
    requires Leads(s0, s, after, finish) && CanStep(s.host, s.up, e)
    requires HostWaits(s, HostMoves(e), after)
    ensures Leads(s0, t, after, finish) && Shaped(t.host)
    ensures t == s.(host := Next(s.host, e), down := LinkOut(s.host, s.down, e), up := LinkIn(s.up, e))
  {
    ShapedNext(s.host, e);
    hide Leads, Shaped, Enabled, Next;
    LeadsStep(s0, s, HostMoves(e), after, finish);
    t := Moved(s, HostMoves(e));
  }

  lemma PluginActs(s0: Sys, s: Sys, e: Event, after: set<Exit>, finish: bool) returns (t: Sys)
    requires Leads(s0, s, after, finish) && CanStep(s.plugin, s.down, e)
    requires finish || !(e.Working? && e.w.Finish?)
    ensures Leads(s0, t, after, finish) && Shaped(t.plugin)
    ensures t == s.(plugin := Next(s.plugin, e), up := LinkOut(s.plugin, s.up, e), down := LinkIn(s.down, e))
  {
    ShapedNext(s.plugin, e);
    hide Leads, Shaped, Enabled, Next;
    LeadsStep(s0, s, PluginMoves(e), after, finish);
    t := Moved(s, PluginMoves(e));
  }

  // ---------- one call on its way ----------

  /** The host has made n calls, all of them over, and the next one would find the way free. */
  ghost predicate Ready(s: Sys, n: nat) {
    var host, plugin := s.host, s.plugin;
    && Shaped(host) && Shaped(plugin) && host.prefix == "host" && host.instance == plugin.instance == "i"
    && StreamUsable(host) && host.writer == Polling && host.out == [] && s.down == []
    && host.calls.serial == n == |host.calls.pcs| && n < SLOTS + 1 && host.calls.pending == map[]
    && plugin.stage == Open && plugin.reader == Reading && plugin.writer == Polling && |plugin.handlers.pcs| == n
  }

  /** The n-th call, counting from 0, and the request it sends. */
  function IdOf(n: nat): string { CallId("host", SerialOf(n)) }
  function RequestOf(n: nat): Message { RequestMessage("i", IdOf(n), "run", 1, "{}") }

  lemma RequestOfProper(n: nat)
    ensures var m := RequestOf(n);
            && WellFormed(m, "i") && IsRequest(m) && m.verb != CANCEL && m.verb != ""
            && m.deadline != 0 && m.id == IdOf(n)
  {
  }

  /** The calls of a host that waits for its n-th reply. */
  ghost predicate WaitsFor(before: Calls, cs: Calls, n: nat) {
    && cs.serial == n + 1 && cs.pcs == before.pcs + [Waiting] && |cs.tickets| == n + 1
    && cs.pending == map[IdOf(n) := n] && cs.tickets[n].request == RequestOf(n)
    && cs.tickets[n].slot.None? && cs.tickets[n].taken.None? && cs.tickets[..n] == before.tickets
  }

  lemma HostIssues(s0: Sys, s: Sys, n: nat, after: set<Exit>, finish: bool) returns (t: Sys)
    requires Leads(s0, s, after, finish) && Ready(s, n) && HostWaits(s, HostMoves(Issue("run", 1, "{}")), after)
    ensures Leads(s0, t, after, finish) && Shaped(t.host) && t == s.(host := s.host.(calls := t.host.calls))
    ensures var cs := t.host.calls;
            && cs.serial == n + 1 && cs.pending == map[] && cs.pcs == s.host.calls.pcs + [Numbered]
            && cs.tickets == s.host.calls.tickets + [Ticket(RequestOf(n), false, None, None)]
  {
    hide Leads, CallId;
    t := HostActs(s0, s, Issue("run", 1, "{}"), after, finish);
  }

  lemma HostEnqueues(s0: Sys, s: Sys, n: nat, after: set<Exit>, finish: bool) returns (t: Sys)
    requires Leads(s0, s, after, finish) && Shaped(s.host)
    requires |s.host.calls.pcs| == |s.host.calls.tickets| == n + 1 && s.host.calls.pcs[n] == Numbered
    requires s.host.calls.tickets[n] == Ticket(RequestOf(n), false, None, None)
    requires s.host.calls.pending == map[] && s.host.out == []
    ensures Leads(s0, t, after, finish) && Shaped(t.host)
    ensures t == s.(host := s.host.(out := [RequestOf(n)], calls := t.host.calls))
    ensures var cs := t.host.calls;
            && cs.serial == s.host.calls.serial && cs.pending == map[IdOf(n) := n]
            && cs.pcs == s.host.calls.pcs[n := Waiting]
            && cs.tickets == s.host.calls.tickets[n := Ticket(RequestOf(n), true, None, None)]
  {
    hide Leads, Shaped, CallId;
    assert s.host.calls.Shaped();
    t := HostActs(s0, s, Calling(n, Register), after, finish);
    t := HostActs(s0, t, Calling(n, Send), after, finish);
    assert [] + [RequestOf(n)] == [RequestOf(n)];
  }

  lemma HostWrites(s0: Sys, s: Sys, m: Message, after: set<Exit>, finish: bool) returns (t: Sys)
    requires Leads(s0, s, after, finish) && Shaped(s.host) && StreamUsable(s.host)
    requires s.host.out == [m] && s.host.writer == Polling && s.down == []
    ensures Leads(s0, t, after, finish) && Shaped(t.host) && t == s.(host := s.host.(out := []), down := [m])
  {
    hide Leads, Shaped;
    t := HostActs(s0, s, Wiring(Fetch), after, finish);
    t := HostActs(s0, t, Wiring(Write), after, finish);
  }

  /** The host issues its n-th call, and the plugin's reader takes the request off the link. */
  lemma CallReachesReader(s0: Sys, s: Sys, n: nat, after: set<Exit>, finish: bool) returns (t: Sys)
    requires Leads(s0, s, after, finish) && Ready(s, n) && HostWaits(s, HostMoves(Issue("run", 1, "{}")), after)
    ensures Leads(s0, t, after, finish) && Shaped(t.host) && Shaped(t.plugin)
    ensures t == s.(host := s.host.(calls := t.host.calls), plugin := s.plugin.(reader := Holding(RequestOf(n))))
    ensures WaitsFor(s.host.calls, t.host.calls, n)
  {
    t := HostIssues(s0, s, n, after, finish);
    hide Leads, IdOf, RequestOf;
    assert |t.host.calls.pcs| == n + 1;
    t := HostEnqueues(s0, t, n, after, finish);
    t := HostWrites(s0, t, RequestOf(n), after, finish);
    hide Shaped;
    t := PluginActs(s0, t, Wiring(Receive(RequestOf(n))), after, finish);
  }

  lemma PluginAccepts(s0: Sys, s: Sys, m: Message, after: set<Exit>, finish: bool) returns (t: Sys)
    requires Leads(s0, s, after, finish) && Shaped(s.plugin) && s.plugin.reader == Holding(m)
    requires !s.plugin.writer.Writing? && Admits(s.plugin, m)
    ensures Leads(s0, t, after, finish) && Shaped(t.plugin)
    ensures var hs := s.plugin.handlers;
            && |hs.pcs| == |hs.jobs|
            && t == s.(plugin := s.plugin.(reader := Reading, handlers := hs.Admit(m).Move(|hs.pcs|, Running)))
  {
    assert s.plugin.handlers.Shaped();
    hide Leads, WellFormed, Shaped;
    t := PluginActs(s0, s, Wiring(Dispatch), after, finish);
    t := PluginActs(s0, t, Wiring(Spawn), after, finish);
  }

  /** The host makes its n-th call, and the plugin starts a handler for it. */
  lemma CallArrives(s0: Sys, s: Sys, n: nat, after: set<Exit>, finish: bool) returns (t: Sys)
    requires Leads(s0, s, after, finish) && Ready(s, n) && HostWaits(s, HostMoves(Issue("run", 1, "{}")), after)
    requires s.plugin.handlers.slots < SLOTS && IdOf(n) !in s.plugin.handlers.active
    ensures Leads(s0, t, after, finish) && Shaped(t.host) && Shaped(t.plugin)
    ensures t == s.(host := s.host.(calls := t.host.calls),
                    plugin := s.plugin.(handlers := s.plugin.handlers.Admit(RequestOf(n)).Move(n, Running)))
    ensures WaitsFor(s.host.calls, t.host.calls, n)
  {
    RequestOfProper(n);
    t := CallReachesReader(s0, s, n, after, finish);
    hide Leads, IdOf, RequestOf, WellFormed, WaitsFor, Shaped;
    t := PluginAccepts(s0, t, RequestOf(n), after, finish);
  }

  // ---------- a call that ends unanswered ----------

  lemma CallSeesDone(s0: Sys, s: Sys, n: nat, after: set<Exit>, finish: bool) returns (t: Sys)
    requires Leads(s0, s, after, finish) && Shaped(s.host) && s.host.stage == Open
    requires n < |s.host.calls.pcs| && s.host.calls.pcs[n] == Waiting
    ensures Leads(s0, t, after, finish) && Shaped(t.host)
    ensures t == s.(host := s.host.(stage := DoneClosed, calls := s.host.calls.Move(n, Leaving(PeerDone))))
  {
    hide Leads, Shaped;
    t := HostActs(s0, s, Wiring(Close), after, finish);
    t := HostActs(s0, t, Calling(n, SeeDone), after, finish);
  }

  lemma CancelReaches(s0: Sys, s: Sys, n: nat, m: Message, after: set<Exit>, finish: bool) returns (t: Sys)
    requires Leads(s0, s, after, finish) && Shaped(s.host) && Shaped(s.plugin) && s.host.stage == Open
    requires m == CancelMessage(s.host.instance, IdOf(n))
    requires s.host.out == [] && s.host.writer == Polling && s.down == []
    requires StreamUsable(s.plugin) && s.plugin.reader == Reading
    requires n < |s.host.calls.pcs| && s.host.calls.pcs[n] == Waiting && s.host.calls.tickets[n].request.id == IdOf(n)
    ensures Leads(s0, t, after, finish) && Shaped(t.host) && Shaped(t.plugin)
    ensures t == s.(host := s.host.(calls := s.host.calls.Move(n, Settling)), plugin := s.plugin.(reader := Holding(m)))
  {
    hide Leads, Shaped, CancelMessage, IdOf;
    t := HostActs(s0, s, Calling(n, Expire), after, finish);
    t := HostActs(s0, t, Calling(n, SendCancel), after, finish);
    assert t.host.calls.pcs == s.host.calls.pcs[n := Settling] && [] + [m] == [m];
    t := HostWrites(s0, t, m, after, finish);
    t := PluginActs(s0, t, Wiring(Receive(m)), after, finish);
  }

  lemma CancelFired(s0: Sys, s: Sys, m: Message, after: set<Exit>, finish: bool) returns (t: Sys)
    requires Leads(s0, s, after, finish) && Shaped(s.plugin) && s.plugin.reader == Holding(m)
    requires m == CancelMessage(s.plugin.instance, m.id) && m.id != "" && !s.plugin.writer.Writing?
    ensures Leads(s0, t, after, finish) && Shaped(t.plugin)
    ensures t == s.(plugin := s.plugin.(reader := Reading, handlers := s.plugin.handlers.Fire(m.id)))
  {
    assert WellFormed(m, s.plugin.instance) && !m.reply && m.verb == CANCEL;
    hide Leads, Shaped, CancelMessage, WellFormed;
    t := PluginActs(s0, s, Wiring(Dispatch), after, finish);
  }

  /** The host's n-th call is cancelled; the plugin has fired the handler, but not answered, when the host's peer
      is closed. */
  lemma CallGivesUp(s0: Sys, s: Sys, n: nat, after: set<Exit>, finish: bool) returns (t: Sys)
    requires Leads(s0, s, after, finish) && Shaped(s.host) && Shaped(s.plugin) && s.host.stage == Open
    requires s.host.instance == s.plugin.instance && s.host.out == [] && s.host.writer == Polling && s.down == []
    requires StreamUsable(s.plugin) && s.plugin.reader == Reading && !s.plugin.writer.Writing?
    requires n < |s.host.calls.pcs| && s.host.calls.pcs[n] == Waiting && s.host.calls.tickets[n].request.id == IdOf(n)
    ensures Leads(s0, t, after, finish) && Shaped(t.host) && Shaped(t.plugin)
    ensures t == s.(host := s.host.(stage := DoneClosed, calls := s.host.calls.Move(n, Leaving(GaveUp))),
                    plugin := s.plugin.(handlers := s.plugin.handlers.Fire(IdOf(n))))
  {
    var m := CancelMessage(s.host.instance, IdOf(n));
    t := CancelReaches(s0, s, n, m, after, finish);
    t := CancelFired(s0, t, m, after, finish);
    hide Leads, Shaped, CancelMessage, IdOf;
    t := HostActs(s0, t, Wiring(Close), after, finish);
    t := HostActs(s0, t, Calling(n, SettleDone), after, finish);
    assert t.host.calls.pcs == s.host.calls.pcs[n := Leaving(GaveUp)];
  }

  /** The host's n-th call ends unanswered: its peer was closed before a reply, or before the answer to its cancel. */
  lemma CallAbandoned(s0: Sys, s: Sys, n: nat, why: Exit, after: set<Exit>, finish: bool) returns (t: Sys)
    requires Leads(s0, s, after, finish) && Shaped(s.host) && Shaped(s.plugin) && s.host.stage == Open
    requires why == PeerDone || why == GaveUp
    requires s.host.instance == s.plugin.instance && s.host.out == [] && s.host.writer == Polling && s.down == []
    requires StreamUsable(s.plugin) && s.plugin.reader == Reading && !s.plugin.writer.Writing?
    requires |s.host.calls.pcs| == n + 1 && s.host.calls.pcs[n] == Waiting
    requires s.host.calls.pending == map[IdOf(n) := n] && s.host.calls.tickets[n].request.id == IdOf(n)
    ensures Leads(s0, t, after, finish) && Shaped(t.host) && Shaped(t.plugin)
    ensures t == s.(host := s.host.(stage := DoneClosed, calls := t.host.calls),
                    plugin := s.plugin.(handlers := s.plugin.handlers.(fired := t.plugin.handlers.fired)))
    ensures t.host.calls.pcs == s.host.calls.pcs[n := Returned(why)] && t.host.calls.pending == map[]
    ensures t.host.calls.serial == s.host.calls.serial
  {
    if why == PeerDone {
      t := CallSeesDone(s0, s, n, after, finish);
    } else {
      t := CallGivesUp(s0, s, n, after, finish);
    }
    hide Leads, Shaped, IdOf;
    t := HostActs(s0, t, Calling(n, Return), after, finish);
    assert map[IdOf(n) := n] - {IdOf(n)} == map[];
  }
}
