/**
 Which messages of a peer that runs this code close the other side: no cancel, a reply only when its handler came
 to empty text, a request only when its call asked for nothing that can be served, or no slot is free.
 */
module HonestMessages {
  import opened Basics
  import opened Envelope
  import opened PeerModel
  import opened PeerInvariants
  import opened PeerHistory
  import opened Duplex
  import opened DuplexRuns
  import opened CallContents

  // ---------- cancels ----------

  /** A message without payload that is not a reply is a cancel and nothing else. */
  predicate ProperCancel(m: Message, instance: string) {
    IsCancel(m) ==> m == Message("special/1.0", instance, m.id, false, "cancel", 0, "", "") && m.id != ""
  }

  ghost predicate AllCancels(ms: seq<Message>, instance: string) {
    forall i :: 0 <= i < |ms| ==> ProperCancel(ms[i], instance)
  }

  ghost predicate OwnProper(p: PeerState) {
    && AllCancels(p.out, p.instance) && (p.writer.Writing? ==> ProperCancel(p.writer.frame, p.instance))
    && (forall k :: 0 <= k < |p.calls.tickets| ==>
          p.calls.tickets[k].request.payload != "" && p.calls.tickets[k].request.id != "")
    && (forall h :: 0 <= h < |p.handlers.jobs| && p.handlers.jobs[h].response.Some? ==>
          p.handlers.jobs[h].response.value.reply)
  }

  lemma CallOwnProper(p: PeerState, k: nat, c: CallEvent)
    requires Shaped(p) && CallEnabled(p, k, c) && OwnProper(p)
    ensures OwnProper(CallNext(p, k, c))
  {
  }

  lemma WorkOwnProper(p: PeerState, h: nat, w: WorkEvent)
    requires Shaped(p) && WorkEnabled(p, h, w) && OwnProper(p)
    ensures OwnProper(WorkNext(p, h, w))
  {
  }

  lemma WireOwnProper(p: PeerState, e: WireEvent)
    requires Shaped(p) && WireEnabled(p, e) && OwnProper(p)
    ensures OwnProper(WireNext(p, e))
  {
    hide WellFormed, ProperCancel;
  }

  lemma StepOwnProper(p: PeerState, e: Event)
    requires Shaped(p) && Enabled(p, e) && OwnProper(p)
    ensures OwnProper(Next(p, e)) && Next(p, e).instance == p.instance
  {
    hide CallNext, WorkNext, WireNext, CallEnabled, WorkEnabled, WireEnabled, ProperCancel, TicketsStay;
    EventInstance(p, e);
    match e
    case Issue(_, _, _) =>
    case Calling(k, c) => CallOwnProper(p, k, c);
    case Working(h, w) => WorkOwnProper(p, h, w);
    case Wiring(w) => WireOwnProper(p, w);
  }

  lemma EventInstance(p: PeerState, e: Event)
    requires Shaped(p) && Enabled(p, e)
    ensures Next(p, e).instance == p.instance
  {
    hide Enabled, Next, Asks;
    EventTicketsStay(p, e);
  }

  /** The cancels on their way from x to y, up to the reader's hand, are proper. */
  ghost predicate WayProper(x: PeerState, xy: seq<Message>, y: PeerState) {
    OwnProper(x) && AllCancels(xy, x.instance) && (y.reader.Holding? ==> ProperCancel(y.reader.held, x.instance))
  }

  lemma SenderSteps(x: PeerState, xy: seq<Message>, y: PeerState, e: Event)
    requires Shaped(x) && Enabled(x, e) && WayProper(x, xy, y)
    ensures WayProper(Next(x, e), LinkOut(x, xy, e), y)
  {
    StepOwnProper(x, e);
    hide ProperCancel, Enabled, Next, Shaped;
  }

  lemma HandStep(y: PeerState, e: Event)
    requires Shaped(y) && Enabled(y, e) && Next(y, e).reader.Holding?
    ensures Next(y, e).reader == y.reader || (e.Wiring? && e.e.Receive? && Next(y, e).reader == Holding(e.e.m))
  {
    hide WellFormed, CallId, RequestMessage, ResponseMessage, CancelMessage;
    match e
    case Issue(_, _, _) =>
    case Calling(k, c) => assert CallNext(y, k, c).reader == y.reader;
    case Working(h, w) => assert WorkNext(y, h, w).reader == y.reader;
    case Wiring(w) =>
  }

  lemma ReceiverSteps(x: PeerState, xy: seq<Message>, y: PeerState, e: Event)
    requires CanStep(y, xy, e) && WayProper(x, xy, y)
    ensures WayProper(x, LinkIn(xy, e), Next(y, e))
  {
    hide ProperCancel, Enabled, Next, Shaped, OwnProper;
    if Next(y, e).reader.Holding? {
      HandStep(y, e);
    }
  }

  ghost predicate WaysProper(s: Sys) { WayProper(s.host, s.down, s.plugin) && WayProper(s.plugin, s.up, s.host) }

  lemma MoveWaysProper(s: Sys, m: Move)
    requires WaysProper(s) && CanMove(s, m)
    ensures WaysProper(Moved(s, m))
  {
    hide WayProper, Enabled, Next, Shaped;
    match m
    case HostMoves(e) =>
      SenderSteps(s.host, s.down, s.plugin, e);
      ReceiverSteps(s.plugin, s.up, s.host, e);
    case PluginMoves(e) =>
      SenderSteps(s.plugin, s.up, s.host, e);
      ReceiverSteps(s.host, s.down, s.plugin, e);
  }

  lemma {:induction false} RunWaysProper(r: Run, j: nat)
    requires IsRun(r) && j <= |r.moves|
    ensures WaysProper(r.states[j])
  {
    if j == 0 {
      var a, b :| r.states[0] == Start(a, b);
    } else {
      hide WaysProper, CanMove, Moved;
      RunWaysProper(r, j - 1);
      MoveWaysProper(r.states[j - 1], r.moves[j - 1]);
    }
  }

  // ---------- what closes a peer ----------

  ghost predicate SameInstance(r: Run) { |r.states| > 0 && r.states[0].host.instance == r.states[0].plugin.instance }

  lemma {:induction false} InstancesAgree(r: Run, j: nat)
    requires IsRun(r) && j <= |r.moves| && SameInstance(r)
    ensures r.states[j].host.instance == r.states[j].plugin.instance
  {
    if j > 0 {
      hide CanMove, Moved;
      InstancesAgree(r, j - 1);
      InstanceKept(r, j - 1, true);
      InstanceKept(r, j - 1, false);
    }
  }

  /** A cancel of an honest peer never closes the other side. */
  lemma HonestCancel(r: Run, j: nat, byHost: bool)
    requires IsRun(r) && j <= |r.moves| && SameInstance(r)
    requires Side(r.states[j], byHost).reader.Holding? && IsCancel(Side(r.states[j], byHost).reader.held)
    ensures !Violates(Side(r.states[j], byHost), Side(r.states[j], byHost).reader.held)
  {
    hide CanMove, Moved, OwnProper;
    RunWaysProper(r, j);
    InstancesAgree(r, j);
  }

  lemma HeadReplyJob(v: X.Exchange) returns (h: nat)
    requires X.Inv(v) && v.bwd != [] && v.bwd[0].reply
    ensures h < |v.jobs| && v.jobs[h].response == Some(v.bwd[0]) && v.jobs[h].request.id == v.bwd[0].id
  {
    hide X.RequestsOnTheWay, X.CancelsBehind, X.Located, X.AnswersMatch, X.Ledger;
    assert X.QueuedResponse(v.jobs, v.admitted, v.bwd[0]);
    h := v.admitted[v.bwd[0].id];
  }

  lemma HeadRequestTicket(w: X.Exchange) returns (k: nat)
    requires X.Inv(w) && w.fwd != [] && IsRequest(w.fwd[0])
    ensures k < |w.tickets| && w.tickets[k].request == w.fwd[0]
  {
    hide X.CancelsBehind, X.Located, X.AnswersMatch, X.Ledger, X.JobsMatch, X.RepliesOnTheWay;
    assert X.SentRequest(w.tickets, w.issued, w.fwd[0]);
    k := w.issued[w.fwd[0].id];
  }

  lemma HeadReply(s: Sys, x: PeerState, y: PeerState) returns (h: nat)
    requires SysInv(s) && Unwrapped(s) && Facing(s, x, y) && x.reader.Holding? && x.reader.held.reply
    ensures h < |y.handlers.jobs| && y.handlers.jobs[h].response == Some(x.reader.held)
    ensures y.handlers.jobs[h].request.id == x.reader.held.id
  {
    hide SysInv, HandlerInv, CallInv, X.Inv;
    var xy, yx := FactsOf(s, x, y);
    HeadOfFlow(x, y, yx);
    h := HeadReplyJob(View(x, y, xy, yx));
  }

  lemma HeadRequest(s: Sys, x: PeerState, y: PeerState) returns (k: nat)
    requires SysInv(s) && Unwrapped(s) && Facing(s, x, y) && x.reader.Holding? && IsRequest(x.reader.held)
    ensures k < |y.calls.tickets| && y.calls.tickets[k].request == x.reader.held
    ensures x.reader.held.id !in x.handlers.active
  {
    hide SysInv, CallInv, X.Inv, SendsAccounted, SpawnPending, SweepCovers, Sound;
    var xy, yx := FactsOf(s, x, y);
    HeadOfFlow(x, y, yx);
    HeadRequestIsNew(View(y, x, yx, xy));
    ActiveAdmitted(x.handlers);
    k := HeadRequestTicket(View(y, x, yx, xy));
  }

  lemma ReplyViolates(x: PeerState, m: Message, instance: string, id: string, o: Outcome)
    requires Carries(m, instance, id, o) && instance == x.instance && id != ""
    ensures Violates(x, m) <==> o == Value("") || o == Failed("") || o == Unencodable("")
  {
  }

  /** A reply of an honest peer closes the other side exactly when its handler came to empty text. */
  lemma HonestReply(r: Run, j: nat, byHost: bool) returns (h: nat, f: nat, o: Outcome)
    requires IsRun(r) && j <= |r.moves| && SameInstance(r) && Unwrapped(r.states[j])
    requires Side(r.states[j], byHost).reader.Holding? && Side(r.states[j], byHost).reader.held.reply
    ensures f < j && Does(r.moves[f], !byHost, Working(h, WorkEvent.Finish(o)))
    ensures var x := Side(r.states[j], byHost);
            Violates(x, x.reader.held) <==> o == Value("") || o == Failed("") || o == Unencodable("")
  {
    hide CanMove, Moved, SysInv, Unwrapped, Carries, Violates;
    RunSysInv(r, j);
    InstancesAgree(r, j);
    var x, y := Side(r.states[j], byHost), Side(r.states[j], !byHost);
    h := HeadReply(r.states[j], x, y);
    f, o := FinishedBy(r, j, !byHost, h);
    JobNamed(r, j, byHost, h);
    ReplyViolates(x, x.reader.held, y.instance, x.reader.held.id, o);
  }

  lemma JobNamed(r: Run, j: nat, byHost: bool, h: nat)
    requires IsRun(r) && j <= |r.moves| && Unwrapped(r.states[j]) && h < |Side(r.states[j], !byHost).handlers.jobs|
    ensures Side(r.states[j], !byHost).handlers.jobs[h].request.id != ""
  {
    hide CanMove, Moved, SysInv;
    RunSysInv(r, j);
    RunWaysProper(r, j);
    hide IsRun, Unwrapped;
    JobHasTicket(r.states[j], Side(r.states[j], byHost), Side(r.states[j], !byHost), h);
  }

  lemma JobHasTicket(s: Sys, x: PeerState, y: PeerState, h: nat)
    requires SysInv(s) && Unwrapped(s) && Facing(s, x, y) && OwnProper(x) && h < |y.handlers.jobs|
    ensures y.handlers.jobs[h].request.id != ""
  {
    var xy, yx := FactsOf(s, x, y);
    var v := View(x, y, xy, yx);
    hide SysInv, HandlerInv, CallInv;
    assert X.SentRequest(v.tickets, v.issued, v.jobs[h].request);
  }

  lemma RequestViolates(x: PeerState, m: Message, y: PeerState, k: nat, verb: string, deadline: nat, raw: string)
    requires Asks(m, y, k, verb, deadline, raw) && x.instance == y.instance && m.id !in x.handlers.active && raw != ""
    ensures Violates(x, m) <==> verb == "" || verb == "cancel" || deadline == 0 || x.handlers.slots >= 8
  {
  }

  /** A request of an honest peer closes the other side exactly when its call named no method or "cancel", gave no
      deadline, or finds every slot taken. */
  lemma HonestRequest(r: Run, j: nat, byHost: bool) returns (k: nat, i: nat, verb: string, deadline: nat, raw: string)
    requires IsRun(r) && j <= |r.moves| && SameInstance(r) && Unwrapped(r.states[j])
    requires Side(r.states[j], byHost).reader.Holding? && IsRequest(Side(r.states[j], byHost).reader.held)
    ensures i < j && IssuesAt(r, i, !byHost, k, verb, deadline, raw)
    ensures var x := Side(r.states[j], byHost);
            Violates(x, x.reader.held) <==> verb == "" || verb == "cancel" || deadline == 0 || x.handlers.slots >= 8
  {
    hide CanMove, Moved, SysInv, Unwrapped, Asks, Violates, IssuesAt;
    RunSysInv(r, j);
    InstancesAgree(r, j);
    var x, y := Side(r.states[j], byHost), Side(r.states[j], !byHost);
    k := HeadRequest(r.states[j], x, y);
    i, verb, deadline, raw := IssuedBy(r, j, !byHost, k);
    AsksPayload(x.reader.held, y, k, verb, deadline, raw);
    RequestViolates(x, x.reader.held, y, k, verb, deadline, raw);
  }

  lemma AsksPayload(m: Message, p: PeerState, k: nat, verb: string, deadline: nat, raw: string)
    requires Asks(m, p, k, verb, deadline, raw)
    ensures m.payload == raw
  {
  }
}
