/**
 What the state of one peer says about its past: which event put what where, stated in the fields of messages
 and over the events of a run. The other side may send anything at all.
 */
module PeerHistory {
  import opened Basics
  import opened Numerals
  import opened Envelope
  import opened PeerModel
  import opened PeerInvariants
  import opened PeerRuns

  // ---------- what a call asks for ----------

  /** m is the request of the k-th call of a peer: exactly what was asked for, and nothing else. */
  ghost predicate Asks(m: Message, p: PeerState, k: nat, verb: string, deadline: nat, raw: string) {
    && m.verb == verb && m.deadline == deadline && m.payload == raw
    && !m.reply && m.error == "" && m.instance == p.instance && m.version == "special/1.0"
    && m.id == p.prefix + "-" + Decimal((k + 1) % WRAP)
  }

  /** Requests stay what they are, and only a new call adds one, with what it asks for. */
  ghost predicate TicketsStay(p: PeerState, e: Event, q: PeerState) {
    && q.instance == p.instance && q.prefix == p.prefix
    && |q.calls.tickets| == |p.calls.tickets| + (if e.Issue? then 1 else 0)
    && q.calls.serial == (if e.Issue? then (p.calls.serial + 1) % WRAP else p.calls.serial)
    && (forall k: nat :: k < |p.calls.tickets| ==> q.calls.tickets[k].request == p.calls.tickets[k].request)
    && (e.Issue? && p.calls.serial == |p.calls.tickets| % WRAP ==>
          Asks(q.calls.tickets[|p.calls.tickets|].request, p, |p.calls.tickets|, e.verb, e.deadline, e.raw))
  }

  lemma IssueTicketsStay(p: PeerState, verb: string, deadline: nat, raw: string)
    requires Shaped(p) && raw != ""
    ensures TicketsStay(p, Issue(verb, deadline, raw), Next(p, Issue(verb, deadline, raw)))
  {
    hide Decimal;
    assert p.calls.serial == |p.calls.tickets| % WRAP ==> (p.calls.serial + 1) % WRAP == (|p.calls.tickets| + 1) % WRAP;
  }

  lemma CallTicketsStay(p: PeerState, k: nat, c: CallEvent)
    requires Shaped(p) && CallEnabled(p, k, c)
    ensures TicketsStay(p, Calling(k, c), CallNext(p, k, c))
  {
    hide CancelMessage;
  }

  lemma EventTicketsStay(p: PeerState, e: Event)
    requires Shaped(p) && Enabled(p, e)
    ensures TicketsStay(p, e, Next(p, e))
  {
    hide CallNext, CallEnabled, WellFormed, ResponseMessage, Asks, CallId, RequestMessage;
    match e
    case Issue(verb, deadline, raw) => IssueTicketsStay(p, verb, deadline, raw);
    case Calling(k, c) => CallTicketsStay(p, k, c);
    case Working(h, w) => assert WorkNext(p, h, w).calls == p.calls;
    case Wiring(w) =>
  }

  // ---------- what a handler comes to ----------

  /** m is the reply to request id when its handler came to o. */
  ghost predicate Carries(m: Message, instance: string, id: string, o: Outcome) {
    && m.reply && m.id == id && m.instance == instance && m.version == "special/1.0" && m.verb == "" && m.deadline == 0
    && match o
       case Value(payload) => m.payload == payload && m.error == ""
       case Failed(text) => m.error == text && m.payload == ""
       case Panicked(detail) => m.error == "special: handler panic: " + detail && m.payload == ""
       case Unencodable(text) => m.error == text && m.payload == ""
  }

  lemma ResponseCarries(instance: string, id: string, o: Outcome)
    ensures Carries(ResponseMessage(instance, id, o), instance, id, o)
  {
  }

  /** Requests stay what they are, and responses too; only a handler that comes to its end gets one, with that. */
  ghost predicate JobsStay(p: PeerState, e: Event, q: PeerState) {
    && q.instance == p.instance && |p.handlers.jobs| <= |q.handlers.jobs|
    && (forall h: nat :: h < |p.handlers.jobs| ==> q.handlers.jobs[h].request == p.handlers.jobs[h].request)
    && (forall h: nat :: h < |p.handlers.jobs| && !(e.Working? && e.w.Finish? && e.h == h) ==>
          q.handlers.jobs[h].response == p.handlers.jobs[h].response)
    && (forall h: nat :: |p.handlers.jobs| <= h < |q.handlers.jobs| ==> q.handlers.jobs[h].response.None?)
    && (e.Working? && e.w.Finish? ==>
          && e.h < |p.handlers.jobs| && q.handlers.jobs[e.h].response.Some?
          && Carries(q.handlers.jobs[e.h].response.value, p.instance, p.handlers.jobs[e.h].request.id, e.w.outcome))
  }

  lemma WorkStays(p: PeerState, h: nat, w: WorkEvent)
    requires Shaped(p) && WorkEnabled(p, h, w)
    ensures JobsStay(p, Working(h, w), WorkNext(p, h, w))
  {
    if w.Finish? {
      ResponseCarries(p.instance, p.handlers.jobs[h].request.id, w.outcome);
    }
    hide ResponseMessage, Carries;
  }

  lemma WireStays(p: PeerState, w: WireEvent)
    requires Shaped(p) && WireEnabled(p, w)
    ensures JobsStay(p, Wiring(w), WireNext(p, w))
  {
    hide WellFormed;
    if !(w.Spawn? || w.Dispatch? || w.Sweep?) {
      assert WireNext(p, w).handlers == p.handlers;
    }
  }

  lemma EventStays(p: PeerState, e: Event)
    requires Shaped(p) && Enabled(p, e)
    ensures JobsStay(p, e, Next(p, e))
  {
    hide WorkNext, WireNext, WorkEnabled, WireEnabled;
    match e
    case Issue(_, _, _) =>
    case Calling(k, c) => assert CallNext(p, k, c).handlers == p.handlers && CallNext(p, k, c).instance == p.instance;
    case Working(h, w) => WorkStays(p, h, w);
    case Wiring(w) => WireStays(p, w);
  }

  // ---------- what the reader does with a message ----------

  /** What closes the connection: a foreign or malformed envelope, or a request that repeats an active identifier,
      lacks method or deadline, or finds no free slot. */
  predicate Violates(p: PeerState, m: Message) {
    || m.version != "special/1.0" || m.instance != p.instance || m.id == ""
    || (m.reply && (m.verb != "" || m.deadline != 0 || ((m.error == "") == (m.payload == ""))))
    || (!m.reply && m.error != "")
    || (!m.reply && m.verb == "cancel" && (m.deadline != 0 || m.payload != ""))
    || (!m.reply && m.verb != "cancel" && m.payload == "")
    || (!m.reply && m.verb != "cancel" &&
          (m.id in p.handlers.active || m.verb == "" || m.deadline == 0 || p.handlers.slots >= 8))
  }

  /** p after its reader has stopped: closed, and otherwise as it was. */
  predicate Stopped(p: PeerState, q: PeerState) {
    q == p.(reader := ReaderDone, stage := if p.stage == Open then DoneClosed else p.stage)
  }

  /** The handlers after a cancel of id: the one that `active` has for it is cancelled, and nothing else changes. */
  predicate Cancelled(hs: Handlers, id: string, ht: Handlers) {
    ht == hs.(fired := ht.fired) && ht.fired == if id in hs.active then hs.fired + {hs.active[id]} else hs.fired
  }

  /** The handlers after a new request: one more, filed under its identifier, with a token. */
  predicate Admitting(hs: Handlers, m: Message, ht: Handlers) {
    && ht.pcs == hs.pcs + [Admitted] && ht.jobs == hs.jobs + [Job(m, None, false)] && ht.slots == hs.slots + 1
    && ht.active == hs.active[m.id := |hs.jobs|] && ht.fired == hs.fired && ht.swept == hs.swept
  }

  /** One dispatch, in every case: a violation stops the reader and changes nothing else; a reply goes to the call
      waiting for it, or nowhere; a cancel cancels its handler; a request gets a handler of its own. */
  lemma DispatchDecides(p: PeerState, m: Message)
    requires p.reader == Holding(m)
    ensures var q := Dispatched(p, m);
            && (Violates(p, m) ==> Stopped(p, q))
            && (!Violates(p, m) && m.reply ==>
                  q == p.(reader := if m.id in p.calls.pending then Delivering(p.calls.pending[m.id], m) else Reading))
            && (!Violates(p, m) && !m.reply && m.verb == "cancel" ==>
                  q == p.(reader := Reading, handlers := q.handlers) && Cancelled(p.handlers, m.id, q.handlers))
            && (!Violates(p, m) && !m.reply && m.verb != "cancel" ==>
                  && q == p.(reader := Spawning(|p.handlers.jobs|), handlers := q.handlers)
                  && Admitting(p.handlers, m, q.handlers))
  {
  }

  /** The same in any run: a foreign or malformed message, whatever the other side meant by it, closes the peer and
      leaves calls and handlers alone. */
  lemma ViolationCloses(r: PeerRun, i: nat, m: Message)
    requires IsRun(r) && i < |r.events| && r.events[i] == Wiring(Dispatch) && r.states[i].reader == Holding(m)
    ensures Violates(r.states[i], m) <==> r.states[i + 1].reader == ReaderDone
    ensures Violates(r.states[i], m) ==>
              && r.states[i + 1].stage != Open
              && r.states[i + 1].calls == r.states[i].calls && r.states[i + 1].handlers == r.states[i].handlers
  {
    assert Follows(r.states[i], r.events[i], r.states[i + 1]);
    DispatchDecides(r.states[i], m);
    hide Violates, Dispatched;
  }

  // ---------- closing ----------

  /** Whoever has stopped, or waits inside `Close`, has closed the peer. */
  ghost predicate StopsClose(p: PeerState) {
    && (p.reader.ReaderDone? || p.writer.WriterDone? ==> p.stage != Open)
    && (p.stage == Open ==>
          forall k :: 0 <= k < |p.calls.pcs| ==> p.calls.pcs[k] != CancelLost && p.calls.pcs[k] != GivingUp)
    && (p.stage == Open ==> forall h :: 0 <= h < |p.handlers.pcs| ==> p.handlers.pcs[h] != ReplyLost)
  }

  lemma WireStopsClose(p: PeerState, e: WireEvent)
    requires Shaped(p) && WireEnabled(p, e) && StopsClose(p)
    ensures StopsClose(WireNext(p, e))
  {
    hide WellFormed;
  }

  lemma CallStopsClose(p: PeerState, k: nat, c: CallEvent)
    requires Shaped(p) && CallEnabled(p, k, c) && StopsClose(p)
    ensures StopsClose(CallNext(p, k, c))
  {
    hide CancelMessage;
  }

  lemma StepStopsClose(p: PeerState, e: Event)
    requires Shaped(p) && Enabled(p, e) && StopsClose(p)
    ensures StopsClose(Next(p, e))
  {
    hide CallNext, WireNext, CallEnabled, WireEnabled, CallId, RequestMessage, ResponseMessage;
    match e
    case Issue(_, _, _) =>
    case Calling(k, c) => CallStopsClose(p, k, c);
    case Working(h, w) =>
    case Wiring(w) => WireStopsClose(p, w);
  }

  /** In every run: a reader or writer that has stopped, and a call or handler that is inside `Close`, means that the
      peer is closed. */
  lemma {:induction false} StoppedIsClosed(r: PeerRun, i: nat)
    requires IsRun(r) && i <= |r.events|
    ensures StopsClose(r.states[i])
  {
    if i > 0 {
      hide StopsClose, Shaped, Enabled, Next;
      StoppedIsClosed(r, i - 1);
      assert Follows(r.states[i - 1], r.events[i - 1], r.states[i]);
      StepStopsClose(r.states[i - 1], r.events[i - 1]);
    }
  }

  // ---------- replies ----------

  /** m may end a call for request id: it is a reply to it from the right instance, with either a payload or an
      error. */
  predicate ProperReply(m: Message, instance: string, id: string) {
    m.reply && m.id == id && m.instance == instance && (m.error == "") != (m.payload == "")
  }

  ghost predicate RepliesProper(p: PeerState) {
    && (p.reader.Delivering? ==>
          && p.reader.call < |p.calls.tickets|
          && ProperReply(p.reader.reply, p.instance, p.calls.tickets[p.reader.call].request.id))
    && (forall k :: 0 <= k < |p.calls.tickets| ==>
          && (p.calls.tickets[k].slot.Some? ==>
                ProperReply(p.calls.tickets[k].slot.value, p.instance, p.calls.tickets[k].request.id))
          && (p.calls.tickets[k].taken.Some? ==>
                ProperReply(p.calls.tickets[k].taken.value, p.instance, p.calls.tickets[k].request.id)))
  }

  lemma CallRepliesProper(p: PeerState, k: nat, c: CallEvent)
    requires Shaped(p) && CallEnabled(p, k, c) && RepliesProper(p)
    ensures RepliesProper(CallNext(p, k, c))
  {
    hide CancelMessage, ProperReply;
  }

  lemma DispatchRepliesProper(p: PeerState, m: Message)
    requires RepliesProper(p) && PendingNames(p.calls)
    ensures RepliesProper(Dispatched(p, m))
  {
  }

  ghost predicate PendingNames(cs: Calls) {
    forall id :: id in cs.pending ==> cs.pending[id] < |cs.tickets| && cs.tickets[cs.pending[id]].request.id == id
  }

  lemma WireRepliesProper(p: PeerState, e: WireEvent)
    requires Shaped(p) && WireEnabled(p, e) && RepliesProper(p) && PendingNames(p.calls)
    ensures RepliesProper(WireNext(p, e))
  {
    hide Dispatched, ProperReply;
    if e.Dispatch? {
      DispatchRepliesProper(p, p.reader.held);
    }
  }

  lemma CallPendingNames(p: PeerState, k: nat, c: CallEvent)
    requires Shaped(p) && CallEnabled(p, k, c) && PendingNames(p.calls)
    ensures PendingNames(CallNext(p, k, c).calls)
  {
    hide CancelMessage;
  }

  lemma StepRepliesProper(p: PeerState, e: Event)
    requires Shaped(p) && Enabled(p, e) && RepliesProper(p) && PendingNames(p.calls)
    ensures RepliesProper(Next(p, e)) && PendingNames(Next(p, e).calls)
  {
    hide CallNext, WireNext, CallEnabled, WireEnabled, CallId, RequestMessage, ResponseMessage, ProperReply;
    match e
    case Issue(_, _, _) =>
    case Calling(k, c) => CallRepliesProper(p, k, c); CallPendingNames(p, k, c);
    case Working(h, w) => assert WorkNext(p, h, w).calls == p.calls;
    case Wiring(w) => WireRepliesProper(p, w); WirePendingNames(p, w);
  }

  lemma WirePendingNames(p: PeerState, e: WireEvent)
    requires Shaped(p) && WireEnabled(p, e) && PendingNames(p.calls)
    ensures PendingNames(WireNext(p, e).calls)
  {
    hide WellFormed;
  }

  // ---------- how a call ends ----------

  /** Step c of the k-th call ends it, with `why`. */
  ghost predicate EndsAs(p: PeerState, k: nat, c: CallEvent, why: Exit)
    requires Shaped(p)
  {
    k < |p.calls.pcs| &&
    match c
    case Register => |p.calls.pending| >= 32 && why == Refused
    case Abort => why == NotSent
    case Take => p.calls.tickets[k].slot.Some? && why == Took
    case SeeDone => p.stage != Open && why == PeerDone
    case TakeAck => p.calls.tickets[k].slot.Some? && why == Acked
    case SettleDone => p.stage != Open && why == GaveUp
    case CloseReturns => p.calls.pcs[k] == GivingUp && p.stage == Swept && why == GaveUp
    case _ => false
  }

  /** The call is over, or about to leave, and this is how. */
  predicate EndedAs(c: Caller, why: Exit) { c == Leaving(why) || c == Returned(why) }

  lemma CallMovesOwn(p: PeerState, k: nat, c: CallEvent)
    requires Shaped(p) && CallEnabled(p, k, c)
    ensures k < |p.calls.pcs| == |CallNext(p, k, c).calls.pcs| && !p.calls.pcs[k].Returned?
    ensures CallNext(p, k, c).calls.pcs == p.calls.pcs[k := CallNext(p, k, c).calls.pcs[k]]
  {
  }

  ghost predicate OwnEnd(p: PeerState, k: nat, c: CallEvent, why: Exit)
    requires Shaped(p) && CallEnabled(p, k, c)
  {
    && k < |p.calls.pcs| == |CallNext(p, k, c).calls.pcs|
    && (EndedAs(CallNext(p, k, c).calls.pcs[k], why) <==> EndedAs(p.calls.pcs[k], why) || EndsAs(p, k, c, why))
  }

  lemma BeforeSelect(p: PeerState, k: nat, c: CallEvent, why: Exit)
    requires Shaped(p) && CallEnabled(p, k, c) && (c.Register? || c.Send? || c.Abort?)
    ensures OwnEnd(p, k, c, why)
  {
  }

  lemma FirstSelect(p: PeerState, k: nat, c: CallEvent, why: Exit)
    requires Shaped(p) && CallEnabled(p, k, c) && (c.Take? || c.SeeDone? || c.Expire?)
    ensures OwnEnd(p, k, c, why)
  {
  }

  lemma CancelQueued(p: PeerState, k: nat, c: CallEvent, why: Exit)
    requires Shaped(p) && CallEnabled(p, k, c) && (c.SendCancel? || c.CancelFails? || c.CloseReturns?)
    ensures OwnEnd(p, k, c, why)
  {
    hide CancelMessage;
  }

  lemma SecondSelect(p: PeerState, k: nat, c: CallEvent, why: Exit)
    requires Shaped(p) && CallEnabled(p, k, c) && (c.TakeAck? || c.SettleDone? || c.SettleTimeout? || c.Return?)
    ensures OwnEnd(p, k, c, why)
  {
  }

  lemma CallEndsOwn(p: PeerState, k: nat, c: CallEvent, why: Exit)
    requires Shaped(p) && CallEnabled(p, k, c)
    ensures OwnEnd(p, k, c, why)
  {
    hide CallEnabled, CallNext, EndsAs, EndedAs, Shaped, OwnEnd;
    match c
    case Register => BeforeSelect(p, k, c, why);
    case Send => BeforeSelect(p, k, c, why);
    case Abort => BeforeSelect(p, k, c, why);
    case SendCancel => CancelQueued(p, k, c, why);
    case CancelFails => CancelQueued(p, k, c, why);
    case CloseReturns => CancelQueued(p, k, c, why);
    case Take => FirstSelect(p, k, c, why);
    case SeeDone => FirstSelect(p, k, c, why);
    case Expire => FirstSelect(p, k, c, why);
    case _ => SecondSelect(p, k, c, why);
  }

  lemma CallEnds(p: PeerState, k: nat, c: CallEvent, j: nat, why: Exit)
    requires Shaped(p) && CallEnabled(p, k, c) && j < |p.calls.pcs|
    ensures j < |CallNext(p, k, c).calls.pcs|
    ensures EndedAs(CallNext(p, k, c).calls.pcs[j], why) <==>
            EndedAs(p.calls.pcs[j], why) || (j == k && EndsAs(p, k, c, why))
  {
    CallMovesOwn(p, k, c);
    CallEndsOwn(p, k, c, why);
    hide CallEnabled, CallNext, EndsAs, EndedAs, Shaped;
  }

  ghost predicate EndsIn(r: PeerRun, i: nat, k: nat, why: Exit) {
    && i < |r.events| && i < |r.states| && Shaped(r.states[i])
    && r.events[i].Calling? && r.events[i].k == k && EndsAs(r.states[i], k, r.events[i].c, why)
  }

  lemma EndsStep(p: PeerState, e: Event, q: PeerState, k: nat, why: Exit)
    requires Follows(p, e, q) && k < |q.calls.pcs|
    ensures k < |p.calls.pcs| || q.calls.pcs[k] == Numbered
    ensures EndedAs(q.calls.pcs[k], why) <==>
            (k < |p.calls.pcs| && EndedAs(p.calls.pcs[k], why)) || (e.Calling? && e.k == k && EndsAs(p, k, e.c, why))
  {
    hide CallNext, CallEnabled, CallId, RequestMessage, EndsAs;
    match e
    case Issue(_, _, _) => assert !EndedAs(Numbered, why);
    case Calling(j, c) => CallMovesOwn(p, j, c); CallEnds(p, j, c, k, why);
    case Working(h, w) => assert WorkNext(p, h, w).calls == p.calls;
    case Wiring(w) => assert WireNext(p, w).calls.pcs == p.calls.pcs;
  }

  lemma EndedNow(r: PeerRun, i: nat, k: nat, why: Exit)
    requires IsRun(r) && i < |r.events| && k < |r.states[i + 1].calls.pcs|
    ensures EndedAs(r.states[i + 1].calls.pcs[k], why) <==>
            (k < |r.states[i].calls.pcs| && EndedAs(r.states[i].calls.pcs[k], why)) || EndsIn(r, i, k, why)
  {
    var p, e, q := r.states[i], r.events[i], r.states[i + 1];
    assert Follows(p, e, q);
    hide Enabled, Next, EndsAs, EndedAs;
    EndsStep(p, e, q, k, why);
    hide Shaped;
  }

  /** In every run a call has ended in a given way exactly if a step of its own ended it so: refused with 32 calls
      pending, unsent, with the reply in its channel, with the peer closed, or after its own close. */
  lemma {:induction false} EndedIff(r: PeerRun, i: nat, k: nat, why: Exit)
    requires IsRun(r) && i <= |r.events| && k < |r.states[i].calls.pcs|
    ensures EndedAs(r.states[i].calls.pcs[k], why) <==> exists j: nat :: j < i && EndsIn(r, j, k, why)
  {
    hide Follows, EndsIn, EndedAs;
    if i > 0 {
      EndedNow(r, i - 1, k, why);
      if k < |r.states[i - 1].calls.pcs| {
        EndedIff(r, i - 1, k, why);
      } else {
        NotYetEnded(r, i - 1, k, why);
      }
    }
  }

  lemma NoneYet(r: PeerRun, i: nat, k: nat, why: Exit)
    requires IsRun(r) && i < |r.events| && k >= |r.states[i + 1].calls.pcs|
    ensures k >= |r.states[i].calls.pcs| && !EndsIn(r, i, k, why)
  {
    assert Follows(r.states[i], r.events[i], r.states[i + 1]);
    hide Enabled, Next;
    CallsGrow(r.states[i], r.events[i]);
    hide Shaped;
    EndsExists(r, i, k, why);
  }

  lemma {:induction false} NotYetEnded(r: PeerRun, i: nat, k: nat, why: Exit)
    requires IsRun(r) && i <= |r.events| && k >= |r.states[i].calls.pcs|
    ensures forall j: nat :: j < i ==> !EndsIn(r, j, k, why)
  {
    hide Follows, EndsIn;
    if i > 0 {
      NoneYet(r, i - 1, k, why);
      NotYetEnded(r, i - 1, k, why);
    }
  }

  /** Only a new call adds one, and a call that has returned stays as it is. */
  lemma CallsGrow(p: PeerState, e: Event)
    requires Shaped(p) && Enabled(p, e)
    ensures |Next(p, e).calls.pcs| == |p.calls.pcs| + if e.Issue? then 1 else 0
    ensures forall k :: 0 <= k < |p.calls.pcs| && p.calls.pcs[k].Returned? ==> Next(p, e).calls.pcs[k] == p.calls.pcs[k]
  {
    hide CallId, RequestMessage, CallNext, Shaped;
    match e
    case Issue(_, _, _) =>
    case Calling(k, c) => CallMovesOwn(p, k, c);
    case Working(h, w) => assert WorkNext(p, h, w).calls == p.calls;
    case Wiring(w) => assert WireNext(p, w).calls.pcs == p.calls.pcs;
  }

  lemma EndsExists(r: PeerRun, i: nat, k: nat, why: Exit)
    ensures EndsIn(r, i, k, why) ==> k < |r.states[i].calls.pcs|
  {
  }

  // ---------- which handlers are cancelled ----------

  /** Step e cancels handler h: a cancel naming its request while it is active, the sweep of `Close` while it is
      active, or its own clean-up. */
  ghost predicate Fires(p: PeerState, e: Event, h: nat) {
    && h < |p.handlers.pcs| && h < |p.handlers.jobs|
    && (|| (e == Wiring(Dispatch) && p.reader.Holding? && CancelsJob(p, p.reader.held, h))
        || (e == Wiring(Sweep) && InActive(p.handlers.pcs[h]))
        || e == Working(h, Forget))
  }

  ghost predicate CancelsJob(p: PeerState, m: Message, h: nat)
    requires h < |p.handlers.pcs| && h < |p.handlers.jobs|
  {
    && !Violates(p, m) && !m.reply && m.verb == "cancel"
    && InActive(p.handlers.pcs[h]) && p.handlers.jobs[h].request.id == m.id
  }

  lemma ActiveIs(hs: Handlers, id: string, h: nat)
    requires Sound(hs) && h < |hs.pcs|
    ensures id in hs.active && hs.active[id] == h <==> InActive(hs.pcs[h]) && hs.jobs[h].request.id == id
    ensures h in hs.active.Values <==> InActive(hs.pcs[h])
  {
    hide SlotsCounted, Responses, AdmissionsRecorded;
    if InActive(hs.pcs[h]) {
      assert hs.active[hs.jobs[h].request.id] in hs.active.Values;
    }
  }

  lemma DispatchFires(p: PeerState, m: Message, h: nat)
    requires p.reader == Holding(m) && Sound(p.handlers) && h < |p.handlers.pcs|
    ensures h in Dispatched(p, m).handlers.fired <==> h in p.handlers.fired || CancelsJob(p, m, h)
  {
    DispatchDecides(p, m);
    ActiveIs(p.handlers, m.id, h);
    hide Dispatched, Violates, Sound;
  }

  lemma SweepFires(p: PeerState, h: nat)
    requires Shaped(p) && p.stage == StreamClosed && Sound(p.handlers) && h < |p.handlers.pcs|
    ensures h in WireNext(p, Sweep).handlers.fired <==> h in p.handlers.fired || InActive(p.handlers.pcs[h])
  {
    ActiveIs(p.handlers, "", h);
    hide Sound, InActive;
  }

  lemma OtherFires(p: PeerState, e: Event)
    requires Shaped(p) && Enabled(p, e) && e != Wiring(Dispatch) && e != Wiring(Sweep) && !(e.Working? && e.w.Forget?)
    ensures Next(p, e).handlers.fired == p.handlers.fired
  {
    hide CallId, RequestMessage, ResponseMessage;
    if e.Calling? {
      assert CallNext(p, e.k, e.c).handlers == p.handlers;
    }
  }

  lemma FiredStep(p: PeerState, e: Event, q: PeerState, h: nat)
    requires HandlerInv(p) && Follows(p, e, q) && h < |p.handlers.pcs|
    ensures h in q.handlers.fired <==> h in p.handlers.fired || Fires(p, e, h)
  {
    hide Sound, SendsAccounted, SpawnPending, SweepCovers, CancelsJob;
    if e == Wiring(Dispatch) {
      DispatchFires(p, p.reader.held, h);
    } else if e == Wiring(Sweep) {
      SweepFires(p, h);
    } else if e.Working? && e.w.Forget? {
      assert WorkNext(p, e.h, e.w).handlers.fired == p.handlers.fired + {e.h};
    } else {
      OtherFires(p, e);
    }
  }

  lemma NewUnfired(p: PeerState, e: Event, q: PeerState, h: nat)
    requires Follows(p, e, q) && HandlerInv(p) && h >= |p.handlers.pcs|
    ensures h !in q.handlers.fired && h !in p.handlers.fired
  {
    hide Sound, SendsAccounted, SpawnPending, SweepCovers;
    if e == Wiring(Dispatch) {
      DispatchDecides(p, p.reader.held);
    } else if e == Wiring(Sweep) || (e.Working? && e.w.Forget?) {
    } else {
      OtherFires(p, e);
    }
  }

  lemma FiredByStep(p: PeerState, e: Event, q: PeerState, h: nat)
    requires Follows(p, e, q) && HandlerInv(p)
    ensures h in q.handlers.fired <==> h in p.handlers.fired || Fires(p, e, h)
  {
    hide HandlerInv, Follows;
    if h < |p.handlers.pcs| {
      FiredStep(p, e, q, h);
    } else {
      NewUnfired(p, e, q, h);
    }
  }

  ghost predicate FiresIn(r: PeerRun, j: nat, h: nat) {
    j < |r.events| && j < |r.states| && Fires(r.states[j], r.events[j], h)
  }

  /** In every run a handler's context has been cancelled exactly by a cancel of its request while it was active, by
      the sweep of `Close` while it was active, or by its own clean-up. */
  lemma {:induction false} FiredIff(r: PeerRun, i: nat, h: nat)
    requires IsRun(r) && i <= |r.events|
    ensures h in r.states[i].handlers.fired <==> exists j: nat :: j < i && FiresIn(r, j, h)
  {
    hide HandlerInv, Follows, Fires;
    if i > 0 {
      RunInv(r, i - 1);
      assert Follows(r.states[i - 1], r.events[i - 1], r.states[i]);
      FiredByStep(r.states[i - 1], r.events[i - 1], r.states[i], h);
      FiredIff(r, i - 1, h);
      assert FiresIn(r, i - 1, h) <==> Fires(r.states[i - 1], r.events[i - 1], h);
    }
  }

  // ---------- nobody is stuck ----------

  /** What the k-th call can do next, in every position: it waits for nothing but the closing it is inside of, and a
      message, a close, a reply, room in `out` or a timeout each let it go on. */
  ghost predicate CallMay(p: PeerState, k: nat)
    requires Shaped(p) && k < |p.calls.pcs|
  {
    && (p.calls.pcs[k].Numbered? ==> CallEnabled(p, k, Register))
    && (p.calls.pcs[k].Registered? ==> CallEnabled(p, k, Abort) && (|p.out| < 32 ==> CallEnabled(p, k, Send)))
    && (p.calls.pcs[k].Waiting? ==>
          && CallEnabled(p, k, Expire) && (p.stage != Open ==> CallEnabled(p, k, SeeDone))
          && (p.calls.tickets[k].slot.Some? ==> CallEnabled(p, k, Take)))
    && (p.calls.pcs[k].Cancelling? ==>
          CallEnabled(p, k, CancelFails) && (|p.out| < 32 ==> CallEnabled(p, k, CallEvent.SendCancel)))
    && (p.calls.pcs[k].Settling? ==>
          && CallEnabled(p, k, SettleTimeout) && (p.stage != Open ==> CallEnabled(p, k, SettleDone))
          && (p.calls.tickets[k].slot.Some? ==> CallEnabled(p, k, TakeAck)))
    && (p.calls.pcs[k].CancelLost? || p.calls.pcs[k].GivingUp? ==>
          if p.stage == Swept then CallEnabled(p, k, CloseReturns) else ClosingGoesOn(p))
    && (p.calls.pcs[k].Leaving? ==> CallEnabled(p, k, Return))
  }

  predicate ClosingGoesOn(p: PeerState) { WireEnabled(p, CloseStream) || WireEnabled(p, Sweep) }

  ghost predicate WorkerMay(p: PeerState, h: nat)
    requires Shaped(p) && h < |p.handlers.pcs|
  {
    && (p.handlers.pcs[h].Admitted? ==> p.reader == Spawning(h) && WireEnabled(p, Spawn))
    && (p.handlers.pcs[h].Running? ==> forall o :: WorkEnabled(p, h, Finish(o)))
    && (p.handlers.pcs[h].Replying? ==> WorkEnabled(p, h, ReplyFails) && (|p.out| < 32 ==> WorkEnabled(p, h, Reply)))
    && (p.handlers.pcs[h].ReplyLost? ==> if p.stage == Swept then WorkEnabled(p, h, CloseOver) else ClosingGoesOn(p))
    && (p.handlers.pcs[h].Unwinding? ==> WorkEnabled(p, h, Forget))
    && (p.handlers.pcs[h].Releasing? ==> WorkEnabled(p, h, Release))
  }

  ghost predicate WiresMay(p: PeerState) {
    && (p.reader.Reading? ==> WireEnabled(p, ReadFails) && forall m :: StreamUsable(p) ==> WireEnabled(p, Receive(m)))
    && (p.reader.Holding? ==> WireEnabled(p, Dispatch))
    && (p.reader.Delivering? ==> WireEnabled(p, Deliver))
    && (p.writer.Polling? ==> (p.out != [] ==> WireEnabled(p, Fetch)) && (p.stage != Open ==> WireEnabled(p, Quit)))
    && (p.writer.Writing? ==> WireEnabled(p, WriteFails(false)) && (StreamUsable(p) ==> WireEnabled(p, Write)))
  }

  lemma CallNotStuck(p: PeerState, k: nat)
    requires Shaped(p) && k < |p.calls.pcs| && StopsClose(p)
    ensures CallMay(p, k)
  {
  }

  lemma WorkerNotStuck(p: PeerState, h: nat)
    requires HandlerInv(p) && h < |p.handlers.pcs| && StopsClose(p)
    ensures WorkerMay(p, h)
  {
    hide SendsAccounted, SweepCovers, Sound;
    if p.handlers.pcs[h] == Releasing {
      SoundRelease(p.handlers, h);
    } else if p.handlers.pcs[h] == Replying {
      RepliesReady(p.handlers, h);
    }
  }

  lemma RepliesReady(hs: Handlers, h: nat)
    requires Sound(hs) && h < |hs.pcs| && hs.pcs[h] == Replying
    ensures hs.jobs[h].response.Some?
  {
    hide SlotsCounted, ActiveOwned, AdmissionsRecorded;
  }

  /** No call, handler, reader or writer is stuck: each can take the step its position asks for, or waits for the
      stream, or is inside a close that itself goes on. */
  ghost predicate NobodyStuck(p: PeerState) {
    && Shaped(p) && WiresMay(p)
    && (forall k: nat :: k < |p.calls.pcs| ==> CallMay(p, k))
    && (forall h: nat :: h < |p.handlers.pcs| ==> WorkerMay(p, h))
  }

  lemma AllMay(p: PeerState)
    requires HandlerInv(p) && StopsClose(p)
    ensures NobodyStuck(p)
  {
    hide Sound, SendsAccounted, SpawnPending, SweepCovers, StopsClose, CallMay, WorkerMay, Shaped;
    forall k: nat | k < |p.calls.pcs| ensures CallMay(p, k) { CallNotStuck(p, k); }
    forall h: nat | h < |p.handlers.pcs| ensures WorkerMay(p, h) { WorkerNotStuck(p, h); }
  }

  /** So it is in every state of every run. */
  lemma RunsOn(r: PeerRun, i: nat)
    requires IsRun(r) && i <= |r.events|
    ensures NobodyStuck(r.states[i])
  {
    hide HandlerInv, StopsClose, NobodyStuck;
    RunInv(r, i);
    StoppedIsClosed(r, i);
    AllMay(r.states[i]);
  }
}
