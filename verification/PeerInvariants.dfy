/**
 What one peer keeps in every reachable state, whatever the other side sends. The handler side
 (slots, `active`, the close sweep) holds without any bound; the caller side (`pending`, identifiers,
 how a `Call` ends) holds while the uint64 serial has not wrapped.
 */
module PeerInvariants {
  import opened Basics
  import opened Envelope
  import opened PeerModel

  // ---------- handlers ----------

  predicate InActive(w: Worker) { w.Admitted? || w.Running? || w.Replying? || w.ReplyLost? || w.Unwinding? }
  predicate PastSend(w: Worker) { w.ReplyLost? || w.Unwinding? || w.Releasing? || w.Gone? }

  ghost function Live(ws: seq<Worker>): set<nat> { set h: nat | h < |ws| && ws[h] != Gone }
  ghost function Entered(ws: seq<Worker>): set<nat> { set h: nat | h < |ws| && InActive(ws[h]) }

  /** Tokens in `slots` are exactly the handlers that have not released theirs. */
  ghost predicate SlotsCounted(hs: Handlers) {
    hs.slots == |Live(hs.pcs)| && |hs.active| == |Entered(hs.pcs)|
  }

  /** `active` maps each identifier to the one handler that will remove it. */
  ghost predicate ActiveOwned(hs: Handlers)
    requires hs.Shaped()
  {
    && (forall id :: id in hs.active ==> InActive(hs.pcs[hs.active[id]]) && hs.jobs[hs.active[id]].request.id == id)
    && (forall h :: 0 <= h < |hs.pcs| && InActive(hs.pcs[h]) ==>
          hs.jobs[h].request.id in hs.active && hs.active[hs.jobs[h].request.id] == h)
  }

  ghost predicate Responses(hs: Handlers)
    requires hs.Shaped()
  {
    forall h :: 0 <= h < |hs.jobs| ==>
      && (hs.jobs[h].queued ==> PastSend(hs.pcs[h]))
      && (hs.jobs[h].response.Some? <==> hs.pcs[h].Replying? || PastSend(hs.pcs[h]))
      && (hs.jobs[h].response.Some? ==>
            hs.jobs[h].response.value.reply && hs.jobs[h].response.value.id == hs.jobs[h].request.id)
  }

  ghost predicate AdmissionsRecorded(hs: Handlers) {
    && (forall id :: id in hs.admitted ==> hs.admitted[id] < |hs.jobs| && hs.jobs[hs.admitted[id]].request.id == id)
    && (forall h :: 0 <= h < |hs.jobs| ==>
          hs.jobs[h].request.id in hs.admitted && h <= hs.admitted[hs.jobs[h].request.id])
  }

  ghost predicate Sound(hs: Handlers) {
    hs.Shaped() && SlotsCounted(hs) && ActiveOwned(hs) && Responses(hs) && AdmissionsRecorded(hs) && hs.slots <= SLOTS
  }

  /** A handler past its send has queued its reply, or the peer is closed. */
  ghost predicate SendsAccounted(hs: Handlers, stage: Stage)
    requires hs.Shaped()
  {
    stage == Open ==> forall h :: 0 <= h < |hs.pcs| && PastSend(hs.pcs[h]) ==> hs.jobs[h].queued
  }

  ghost predicate SpawnPending(hs: Handlers, reader: Reader) {
    forall h: nat :: h < |hs.pcs| ==> (hs.pcs[h] == Admitted <==> reader == Spawning(h))
  }

  /** After the sweep at most one handler - of a request the reader already held - was not cancelled. */
  ghost predicate SweepCovers(hs: Handlers, stage: Stage, reader: Reader) {
    stage == Swept ==>
      && hs.swept <= |hs.pcs| <= hs.swept + 1
      && (|hs.pcs| > hs.swept ==> !reader.Holding?)
      && (forall h :: 0 <= h < hs.swept && InActive(hs.pcs[h]) ==> h in hs.fired)
  }

  ghost predicate FiredExist(hs: Handlers) { forall h :: h in hs.fired ==> h < |hs.pcs| }

  ghost predicate HandlerInv(p: PeerState) {
    && Shaped(p) && Sound(p.handlers) && SendsAccounted(p.handlers, p.stage)
    && SpawnPending(p.handlers, p.reader) && SweepCovers(p.handlers, p.stage, p.reader) && FiredExist(p.handlers)
  }

  lemma LiveAppend(ws: seq<Worker>)
    ensures Live(ws + [Admitted]) == Live(ws) + {|ws|} && Entered(ws + [Admitted]) == Entered(ws) + {|ws|}
    ensures |ws| !in Live(ws) && |ws| !in Entered(ws)
  {
  }

  lemma LiveUpdate(ws: seq<Worker>, h: nat, w: Worker)
    requires h < |ws|
    ensures Live(ws[h := w]) == (if w == Gone then Live(ws) - {h} else Live(ws) + {h})
    ensures Entered(ws[h := w]) == (if InActive(w) then Entered(ws) + {h} else Entered(ws) - {h})
    ensures (h in Live(ws) <==> ws[h] != Gone) && (h in Entered(ws) <==> InActive(ws[h]))
  {
  }

  /** Only the h-th handler moved, still working on the same request. */
  ghost predicate OneMoved(hs: Handlers, ht: Handlers, h: nat) {
    && hs.Shaped() && ht.Shaped() && h < |hs.pcs| == |ht.pcs|
    && ht.pcs == hs.pcs[h := ht.pcs[h]] && ht.jobs == hs.jobs[h := ht.jobs[h]]
    && ht.jobs[h].request == hs.jobs[h].request && ht.admitted == hs.admitted
  }

  lemma SlotsKept(hs: Handlers, ht: Handlers, h: nat)
    requires SlotsCounted(hs) && OneMoved(hs, ht, h) && ht.slots == hs.slots
    requires hs.pcs[h] != Gone && ht.pcs[h] != Gone
    requires InActive(ht.pcs[h]) == InActive(hs.pcs[h]) && ht.active == hs.active
    ensures SlotsCounted(ht)
  {
    LiveUpdate(hs.pcs, h, ht.pcs[h]);
    assert Live(ht.pcs) == Live(hs.pcs) && Entered(ht.pcs) == Entered(hs.pcs);
  }

  lemma SlotsForget(hs: Handlers, h: nat)
    requires hs.Shaped() && SlotsCounted(hs) && ActiveOwned(hs) && h < |hs.pcs| && hs.pcs[h] == Unwinding
    ensures SlotsCounted(hs.Forget(h))
  {
    LiveUpdate(hs.pcs, h, Releasing);
    assert Live(hs.pcs) + {h} == Live(hs.pcs);
    assert hs.jobs[h].request.id in hs.active;
    assert |hs.Forget(h).active| == |hs.active| - 1;
  }

  lemma SlotsRelease(hs: Handlers, h: nat)
    requires hs.Shaped() && SlotsCounted(hs) && h < |hs.pcs| && hs.pcs[h] == Releasing
    ensures hs.slots > 0 && SlotsCounted(hs.Release(h))
  {
    LiveUpdate(hs.pcs, h, Gone);
    assert h in Live(hs.pcs) && h !in Entered(hs.pcs);
    hide Live, Entered;
    assert Entered(hs.pcs) - {h} == Entered(hs.pcs);
  }

  lemma SlotsAdmit(hs: Handlers, m: Message)
    requires hs.Shaped() && SlotsCounted(hs) && m.id !in hs.active
    ensures SlotsCounted(hs.Admit(m))
  {
    LiveAppend(hs.pcs);
    assert |hs.Admit(m).active| == |hs.active| + 1;
  }

  lemma ActiveKept(hs: Handlers, ht: Handlers, h: nat)
    requires OneMoved(hs, ht, h) && ActiveOwned(hs)
    requires || (ht.active == hs.active && InActive(ht.pcs[h]) == InActive(hs.pcs[h]))
             || (ht.active == hs.active - {hs.jobs[h].request.id} && InActive(hs.pcs[h]) && !InActive(ht.pcs[h]))
    ensures ActiveOwned(ht)
  {
  }

  lemma ActiveAdmit(hs: Handlers, m: Message)
    requires hs.Shaped() && ActiveOwned(hs) && m.id !in hs.active
    ensures ActiveOwned(hs.Admit(m))
  {
  }

  lemma ResponsesKept(hs: Handlers, ht: Handlers, h: nat)
    requires OneMoved(hs, ht, h) && Responses(hs)
    requires ht.jobs[h].queued ==> PastSend(ht.pcs[h])
    requires ht.jobs[h].response.Some? <==> ht.pcs[h].Replying? || PastSend(ht.pcs[h])
    requires ht.jobs[h].response.Some? ==>
               ht.jobs[h].response.value.reply && ht.jobs[h].response.value.id == ht.jobs[h].request.id
    ensures Responses(ht)
  {
  }

  lemma AdmissionsKept(hs: Handlers, ht: Handlers, h: nat)
    requires OneMoved(hs, ht, h) && AdmissionsRecorded(hs)
    ensures AdmissionsRecorded(ht)
  {
  }

  lemma SoundAdmit(hs: Handlers, m: Message)
    requires Sound(hs) && m.id !in hs.active && hs.slots < SLOTS
    ensures Sound(hs.Admit(m))
  {
    hide SlotsCounted, ActiveOwned;
    SlotsAdmit(hs, m);
    ActiveAdmit(hs, m);
  }

  lemma SoundAdvance(hs: Handlers, ht: Handlers, h: nat)
    requires Sound(hs) && OneMoved(hs, ht, h) && ht.slots == hs.slots && ht.active == hs.active
    requires InActive(hs.pcs[h]) && InActive(ht.pcs[h])
    requires ht.jobs[h].queued ==> PastSend(ht.pcs[h])
    requires ht.jobs[h].response.Some? <==> ht.pcs[h].Replying? || PastSend(ht.pcs[h])
    requires ht.jobs[h].response.Some? ==>
               ht.jobs[h].response.value.reply && ht.jobs[h].response.value.id == ht.jobs[h].request.id
    ensures Sound(ht)
  {
    hide SlotsCounted, ActiveOwned, Responses, AdmissionsRecorded;
    SlotsKept(hs, ht, h);
    ActiveKept(hs, ht, h);
    ResponsesKept(hs, ht, h);
    AdmissionsKept(hs, ht, h);
  }

  lemma ForgetMoves(hs: Handlers, h: nat)
    requires hs.Shaped() && h < |hs.pcs|
    ensures OneMoved(hs, hs.Forget(h), h)
  {
  }

  lemma SoundForget(hs: Handlers, h: nat)
    requires Sound(hs) && h < |hs.pcs| && hs.pcs[h] == Unwinding
    ensures Sound(hs.Forget(h))
  {
    var ht := hs.Forget(h);
    SlotsForget(hs, h);
    ForgetMoves(hs, h);
    hide SlotsCounted, ActiveOwned, AdmissionsRecorded, OneMoved;
    ActiveKept(hs, ht, h);
    ResponsesKept(hs, ht, h);
    AdmissionsKept(hs, ht, h);
  }

  lemma SoundRelease(hs: Handlers, h: nat)
    requires Sound(hs) && h < |hs.pcs| && hs.pcs[h] == Releasing
    ensures hs.slots > 0 && Sound(hs.Release(h))
  {
    hide SlotsCounted, ActiveOwned, AdmissionsRecorded;
    SlotsRelease(hs, h);
    var ht := hs.Release(h);
    ActiveKept(hs, ht, h);
    ResponsesKept(hs, ht, h);
    AdmissionsKept(hs, ht, h);
  }

  /** Steps that leave the handlers alone, except perhaps closing the peer, keep the handler side. */
  lemma HandlersUntouched(p: PeerState, q: PeerState)
    requires HandlerInv(p) && Shaped(q) && q.handlers == p.handlers
    requires q.stage == p.stage || (p.stage != Swept && q.stage != Swept && q.stage != Open)
    requires q.reader == p.reader
             || (!p.reader.Spawning? && !q.reader.Spawning? && (q.reader.Holding? ==> StreamUsable(p)))
    ensures HandlerInv(q)
  {
    hide Sound;
  }

  lemma SoundMoves(hs: Handlers, h: nat, response: Message)
    requires Sound(hs) && h < |hs.pcs| && response.reply && response.id == hs.jobs[h].request.id
    ensures hs.pcs[h] == Admitted ==> Sound(hs.Move(h, Running))
    ensures hs.pcs[h] == Running ==> Sound(hs.Respond(h, response))
    ensures hs.pcs[h] == Replying ==> Sound(hs.MarkQueued(h)) && Sound(hs.Move(h, ReplyLost))
    ensures hs.pcs[h] == ReplyLost ==> Sound(hs.Move(h, Unwinding))
  {
    hide SlotsCounted, ActiveOwned, AdmissionsRecorded;
    if hs.pcs[h] == Admitted {
      SoundAdvance(hs, hs.Move(h, Running), h);
    } else if hs.pcs[h] == Running {
      SoundAdvance(hs, hs.Respond(h, response), h);
    } else if hs.pcs[h] == Replying {
      SoundAdvance(hs, hs.MarkQueued(h), h);
      SoundAdvance(hs, hs.Move(h, ReplyLost), h);
    } else if hs.pcs[h] == ReplyLost {
      SoundAdvance(hs, hs.Move(h, Unwinding), h);
    }
  }

  lemma SameAccounting(hs: Handlers, ht: Handlers)
    requires ht.slots == hs.slots && ht.pcs == hs.pcs && ht.active == hs.active && SlotsCounted(hs)
    ensures SlotsCounted(ht)
  {
  }

  lemma SameOwners(hs: Handlers, ht: Handlers)
    requires ht.pcs == hs.pcs && ht.jobs == hs.jobs && ht.active == hs.active && hs.Shaped() && ActiveOwned(hs)
    ensures ht.Shaped() && ActiveOwned(ht)
  {
  }

  lemma SoundFire(hs: Handlers, fired: set<nat>, swept: nat)
    requires Sound(hs)
    ensures Sound(hs.(fired := fired, swept := swept))
  {
    var ht := hs.(fired := fired, swept := swept);
    SameAccounting(hs, ht);
    SameOwners(hs, ht);
    hide SlotsCounted, ActiveOwned;
  }

  lemma HandlerInvWork(p: PeerState, h: nat, w: WorkEvent)
    requires HandlerInv(p) && WorkEnabled(p, h, w)
    ensures HandlerInv(WorkNext(p, h, w))
  {
    hide Sound;
    var q := WorkNext(p, h, w);
    var hs, ht := p.handlers, q.handlers;
    ShapedNext(p, Working(h, w));
    var response := ResponseMessage(p.instance, hs.jobs[h].request.id, if w.Finish? then w.outcome else Failed(""));
    SoundMoves(hs, h, response);
    if w.Forget? {
      SoundForget(hs, h);
    } else if w.Release? {
      SoundRelease(hs, h);
    }
    assert SendsAccounted(ht, q.stage);
    assert SpawnPending(ht, q.reader);
    assert SweepCovers(ht, q.stage, q.reader);
  }

  lemma HandlerInvAdmit(p: PeerState, m: Message)
    requires HandlerInv(p) && p.reader == Holding(m) && Admits(p, m)
    ensures HandlerInv(Dispatched(p, m))
  {
    hide Sound, WellFormed;
    SoundAdmit(p.handlers, m);
  }

  lemma HandlerInvSpawn(p: PeerState)
    requires HandlerInv(p) && p.reader.Spawning?
    ensures HandlerInv(WireNext(p, Spawn))
  {
    hide Sound;
    var h := p.reader.worker;
    SoundMoves(p.handlers, h, ResponseMessage("", p.handlers.jobs[h].request.id, Failed("")));
  }

  lemma ActiveAreFired(hs: Handlers)
    requires Sound(hs)
    ensures forall h :: 0 <= h < |hs.pcs| && InActive(hs.pcs[h]) ==> h in hs.active.Values
  {
    hide SlotsCounted, Responses, AdmissionsRecorded;
    forall h | 0 <= h < |hs.pcs| && InActive(hs.pcs[h])
      ensures h in hs.active.Values
    {
      assert hs.active[hs.jobs[h].request.id] in hs.active.Values;
    }
  }

  lemma HandlerInvSweep(p: PeerState)
    requires HandlerInv(p) && p.stage == StreamClosed
    ensures HandlerInv(p.(stage := Swept, handlers := p.handlers.FireAll()))
  {
    hide Sound;
    var ht := p.handlers.FireAll();
    SoundFire(p.handlers, ht.fired, ht.swept);
    ActiveAreFired(p.handlers);
  }

  lemma HandlerInvDispatch(p: PeerState, m: Message)
    requires HandlerInv(p) && p.reader == Holding(m)
    ensures HandlerInv(Dispatched(p, m))
  {
    hide Sound;
    ShapedNext(p, Wiring(Dispatch));
    var q := Dispatched(p, m);
    if Admits(p, m) {
      HandlerInvAdmit(p, m);
    } else {
      hide WellFormed, SendsAccounted, SpawnPending, SweepCovers;
      SoundFire(p.handlers, q.handlers.fired, p.handlers.swept);
      FiredMore(p, q);
    }
  }

  /** Firing cancel functions, with or without closing, keeps the handler side. */
  lemma FiredMore(p: PeerState, q: PeerState)
    requires HandlerInv(p) && Shaped(q) && p.reader.Holding?
    requires q.handlers == p.handlers.(fired := q.handlers.fired) && q.handlers.fired >= p.handlers.fired
    requires q.stage == p.stage || (p.stage == Open && q.stage == DoneClosed)
    requires q.reader.Reading? || q.reader.Delivering? || q.reader.ReaderDone?
    requires FiredExist(q.handlers)
    ensures HandlerInv(q)
  {
    hide Sound;
    SoundFire(p.handlers, q.handlers.fired, p.handlers.swept);
  }

  lemma HandlerInvWire(p: PeerState, e: WireEvent)
    requires HandlerInv(p) && WireEnabled(p, e)
    ensures HandlerInv(WireNext(p, e))
  {
    hide Sound, SendsAccounted, SpawnPending, SweepCovers;
    ShapedNext(p, Wiring(e));
    if e.Spawn? {
      HandlerInvSpawn(p);
    } else if e.Sweep? {
      HandlerInvSweep(p);
    } else if e.Dispatch? {
      HandlerInvDispatch(p, p.reader.held);
    } else {
      HandlersUntouched(p, WireNext(p, e));
    }
  }

  /** Every step of the peer, with any message arriving, keeps the handler-side accounting. */
  lemma HandlerInvNext(p: PeerState, e: Event)
    requires HandlerInv(p) && Enabled(p, e)
    ensures HandlerInv(Next(p, e))
  {
    hide Sound, SendsAccounted, SpawnPending, SweepCovers;
    ShapedNext(p, e);
    match e
    case Issue(_, _, _) => HandlersUntouched(p, Next(p, e));
    case Calling(k, c) => HandlersUntouched(p, Next(p, e));
    case Working(h, w) => HandlerInvWork(p, h, w);
    case Wiring(w) => HandlerInvWire(p, w);
  }

  // ---------- callers ----------

  predicate Pends(c: Caller) {
    c.Registered? || c.Waiting? || c.Cancelling? || c.CancelLost? || c.Settling? || c.GivingUp? || c.Leaving?
  }

  predicate HasSent(c: Caller) {
    || c.Waiting? || c.Cancelling? || c.CancelLost? || c.Settling? || c.GivingUp?
    || ((c.Leaving? || c.Returned?) && c.why != NotSent && c.why != Refused)
  }

  predicate Ended(c: Caller) { c.Leaving? || c.Returned? }
  predicate Answered(c: Caller) { Ended(c) && (c.why == Took || c.why == Acked) }

  ghost predicate Numbering(cs: Calls, prefix: string) {
    && cs.serial == |cs.tickets| % WRAP
    && (forall k :: 0 <= k < |cs.tickets| ==>
          && cs.tickets[k].request.id == CallId(prefix, SerialOf(k)) && IsRequest(cs.tickets[k].request)
          && cs.tickets[k].request.id in cs.issued && cs.issued[cs.tickets[k].request.id] == k)
    && (forall id :: id in cs.issued ==> cs.issued[id] < |cs.tickets| && cs.tickets[cs.issued[id]].request.id == id)
  }

  ghost predicate PendingExact(cs: Calls)
    requires cs.Shaped()
  {
    && (forall id :: id in cs.pending ==> Pends(cs.pcs[cs.pending[id]]) && cs.tickets[cs.pending[id]].request.id == id)
    && (forall k :: 0 <= k < |cs.pcs| && Pends(cs.pcs[k]) ==>
          cs.tickets[k].request.id in cs.pending && cs.pending[cs.tickets[k].request.id] == k)
  }

  ghost predicate Progress(cs: Calls)
    requires cs.Shaped()
  {
    forall k :: 0 <= k < |cs.pcs| ==>
      && (cs.tickets[k].sent <==> HasSent(cs.pcs[k]))
      && (cs.tickets[k].taken.Some? <==> Answered(cs.pcs[k]))
  }

  /** A `Call` whose request entered `out` ends with a reply in hand or with the peer closed. */
  ghost predicate Settled(cs: Calls, stage: Stage) {
    stage == Open ==> forall k :: 0 <= k < |cs.pcs| && Ended(cs.pcs[k]) && HasSent(cs.pcs[k]) ==> Answered(cs.pcs[k])
  }

  ghost predicate DeliveryMatched(cs: Calls, reader: Reader) {
    reader.Delivering? ==>
      reader.reply.reply && reader.call < |cs.tickets| && cs.tickets[reader.call].request.id == reader.reply.id
  }

  ghost predicate CallInv(p: PeerState) {
    && Shaped(p) && Numbering(p.calls, p.prefix) && PendingExact(p.calls) && |p.calls.pending| <= QUEUE
    && Progress(p.calls) && Settled(p.calls, p.stage) && DeliveryMatched(p.calls, p.reader)
  }

  /** Before the wrap the next identifier is none of those drawn so far. */
  lemma NextIdIsNew(prefix: string, n: nat)
    requires n < WRAP
    ensures forall k: nat :: k < n ==> CallId(prefix, SerialOf(k)) != CallId(prefix, SerialOf(n))
  {
    forall k: nat | k < n ensures CallId(prefix, SerialOf(k)) != CallId(prefix, SerialOf(n)) {
      CallIdsEqualIff(prefix, k, n);
    }
  }

  lemma SerialNext(cs: Calls, prefix: string)
    requires Numbering(cs, prefix)
    ensures (cs.serial + 1) % WRAP == SerialOf(|cs.tickets|) == (|cs.tickets| + 1) % WRAP
  {
    hide CallId;
  }

  lemma NumberingDraw(cs: Calls, instance: string, prefix: string, verb: string, deadline: nat, raw: string)
    requires Numbering(cs, prefix) && raw != "" && |cs.tickets| < WRAP
    ensures Numbering(cs.Draw(instance, prefix, verb, deadline, raw), prefix)
    ensures CallId(prefix, SerialOf(|cs.tickets|)) !in cs.issued
  {
    SerialNext(cs, prefix);
    NextIdIsNew(prefix, |cs.tickets|);
    hide CallId, SerialOf;
  }

  lemma PendingDraw(cs: Calls, instance: string, prefix: string, verb: string, deadline: nat, raw: string)
    requires cs.Shaped() && PendingExact(cs) && Progress(cs)
    ensures PendingExact(cs.Draw(instance, prefix, verb, deadline, raw))
    ensures Progress(cs.Draw(instance, prefix, verb, deadline, raw))
  {
    hide CallId, RequestMessage;
  }

  lemma CallInvIssue(p: PeerState, verb: string, deadline: nat, raw: string)
    requires CallInv(p) && raw != "" && |p.calls.tickets| < WRAP
    ensures CallInv(Next(p, Issue(verb, deadline, raw)))
  {
    hide Numbering, PendingExact, Progress, CallId, RequestMessage;
    ShapedNext(p, Issue(verb, deadline, raw));
    NumberingDraw(p.calls, p.instance, p.prefix, verb, deadline, raw);
    PendingDraw(p.calls, p.instance, p.prefix, verb, deadline, raw);
  }

  /** Only the k-th call moved, its request untouched. */
  ghost predicate OneAdvanced(cs: Calls, ct: Calls, k: nat) {
    && cs.Shaped() && ct.Shaped() && k < |cs.pcs| == |ct.pcs|
    && ct.serial == cs.serial && ct.issued == cs.issued
    && ct.pcs == cs.pcs[k := ct.pcs[k]] && ct.tickets == cs.tickets[k := ct.tickets[k]]
    && ct.tickets[k].request == cs.tickets[k].request
  }

  lemma NumberingKept(cs: Calls, ct: Calls, k: nat, prefix: string)
    requires OneAdvanced(cs, ct, k) && Numbering(cs, prefix)
    ensures Numbering(ct, prefix)
  {
    hide CallId;
  }

  /** A step of a call keeps its place in `pending`, takes one, or gives it up. */
  ghost predicate KeepsPlace(cs: Calls, ct: Calls, k: nat)
    requires k < |cs.pcs| && k < |cs.tickets| && k < |ct.pcs|
  {
    || (ct.pending == cs.pending && Pends(ct.pcs[k]) == Pends(cs.pcs[k]))
    || (ct.pending == cs.pending[cs.tickets[k].request.id := k] && Pends(ct.pcs[k]))
    || (ct.pending == cs.pending - {cs.tickets[k].request.id} && !Pends(ct.pcs[k]))
  }

  lemma PendingKept(cs: Calls, ct: Calls, k: nat, prefix: string)
    requires OneAdvanced(cs, ct, k) && PendingExact(cs) && Numbering(cs, prefix)
    requires KeepsPlace(cs, ct, k)
    ensures PendingExact(ct)
  {
    hide CallId;
  }

  lemma ProgressKept(cs: Calls, ct: Calls, k: nat)
    requires OneAdvanced(cs, ct, k) && Progress(cs)
    requires ct.tickets[k].sent <==> HasSent(ct.pcs[k])
    requires ct.tickets[k].taken.Some? <==> Answered(ct.pcs[k])
    ensures Progress(ct)
  {
  }

  lemma CallStepLocal(p: PeerState, k: nat, c: CallEvent)
    requires Shaped(p) && CallEnabled(p, k, c) && |p.calls.pending| <= QUEUE
    ensures var q := CallNext(p, k, c);
            && OneAdvanced(p.calls, q.calls, k) && |q.calls.pending| <= QUEUE && q.prefix == p.prefix
            && q.reader == p.reader && (q.stage == p.stage || q.stage != Open)
  {
    ShapedNext(p, Calling(k, c));
    match c
    case Register =>
    case Send =>
    case Abort =>
    case Take =>
    case SeeDone =>
    case Expire =>
    case SendCancel =>
    case CancelFails =>
    case TakeAck =>
    case SettleDone =>
    case SettleTimeout =>
    case CloseReturns =>
    case Return =>
  }

  lemma CallStepMarks(p: PeerState, k: nat, c: CallEvent)
    requires Shaped(p) && CallEnabled(p, k, c) && Progress(p.calls) && Settled(p.calls, p.stage)
    ensures var q := CallNext(p, k, c);
            && k < |q.calls.pcs| && k < |q.calls.tickets|
            && (q.calls.tickets[k].sent <==> HasSent(q.calls.pcs[k]))
            && (q.calls.tickets[k].taken.Some? <==> Answered(q.calls.pcs[k]))
            && (q.stage == Open && Ended(q.calls.pcs[k]) && HasSent(q.calls.pcs[k]) ==> Answered(q.calls.pcs[k]))
  {
    match c
    case Register =>
    case Send =>
    case Abort =>
    case Take =>
    case SeeDone =>
    case Expire =>
    case SendCancel =>
    case CancelFails =>
    case TakeAck =>
    case SettleDone =>
    case SettleTimeout =>
    case CloseReturns =>
    case Return =>
  }

  lemma CallStepPlace(p: PeerState, k: nat, c: CallEvent)
    requires Shaped(p) && CallEnabled(p, k, c)
    ensures k < |p.calls.tickets| && k < |CallNext(p, k, c).calls.pcs|
            && KeepsPlace(p.calls, CallNext(p, k, c).calls, k)
  {
    match c
    case Register =>
    case Send =>
    case Abort =>
    case Take =>
    case SeeDone =>
    case Expire =>
    case SendCancel =>
    case CancelFails =>
    case TakeAck =>
    case SettleDone =>
    case SettleTimeout =>
    case CloseReturns =>
    case Return =>
  }

  lemma CallStepPending(p: PeerState, k: nat, c: CallEvent, ct: Calls)
    requires Shaped(p) && CallEnabled(p, k, c) && ct == CallNext(p, k, c).calls
    requires Numbering(p.calls, p.prefix) && PendingExact(p.calls) && |p.calls.pending| <= QUEUE
    ensures ct.Shaped() && PendingExact(ct)
  {
    CallStepPlace(p, k, c);
    CallStepLocal(p, k, c);
    hide Numbering, PendingExact, CallNext, CallEnabled;
    PendingKept(p.calls, ct, k, p.prefix);
  }

  lemma CallInvCall(p: PeerState, k: nat, c: CallEvent)
    requires CallInv(p) && CallEnabled(p, k, c)
    ensures CallInv(CallNext(p, k, c))
  {
    hide Numbering, PendingExact, Progress, CallNext;
    ShapedNext(p, Calling(k, c));
    CallStepLocal(p, k, c);
    CallStepMarks(p, k, c);
    var cs, ct := p.calls, CallNext(p, k, c).calls;
    CallStepPending(p, k, c, ct);
    NumberingKept(cs, ct, k, p.prefix);
    ProgressKept(cs, ct, k);
  }

  /** Steps that leave the calls alone, except perhaps closing the peer, keep the caller side. */
  lemma CallersUntouched(p: PeerState, q: PeerState)
    requires CallInv(p) && Shaped(q) && q.calls == p.calls && q.prefix == p.prefix
    requires q.stage == p.stage || q.stage != Open
    requires q.reader == p.reader || DeliveryMatched(p.calls, q.reader)
    ensures CallInv(q)
  {
    hide Numbering, PendingExact, Progress;
  }

  lemma CallInvDispatch(p: PeerState, m: Message)
    requires CallInv(p) && p.reader == Holding(m)
    ensures CallInv(Dispatched(p, m))
  {
    var q := Dispatched(p, m);
    assert DeliveryMatched(p.calls, q.reader) by { hide WellFormed, Numbering, Progress; }
    hide Numbering, PendingExact, Progress, WellFormed;
    ShapedNext(p, Wiring(Dispatch));
    CallersUntouched(p, q);
  }

  lemma CallInvDeliver(p: PeerState)
    requires CallInv(p) && p.reader.Delivering? && p.calls.tickets[p.reader.call].slot.None?
    ensures CallInv(WireNext(p, Deliver))
  {
    hide Numbering, PendingExact;
    ShapedNext(p, Wiring(Deliver));
    var k := p.reader.call;
    var cs, ct := p.calls, WireNext(p, Deliver).calls;
    NumberingKept(cs, ct, k, p.prefix);
    PendingKept(cs, ct, k, p.prefix);
  }

  lemma CallInvWire(p: PeerState, e: WireEvent)
    requires CallInv(p) && WireEnabled(p, e)
    ensures CallInv(WireNext(p, e))
  {
    hide Numbering, PendingExact, Progress;
    ShapedNext(p, Wiring(e));
    if e.Dispatch? {
      CallInvDispatch(p, p.reader.held);
    } else if e.Deliver? && p.calls.tickets[p.reader.call].slot.None? {
      CallInvDeliver(p);
    } else {
      CallersUntouched(p, WireNext(p, e));
    }
  }

  /** Every step keeps the caller-side accounting while the serial has not wrapped. */
  lemma CallInvNext(p: PeerState, e: Event)
    requires CallInv(p) && Enabled(p, e) && |Next(p, e).calls.tickets| <= WRAP
    ensures CallInv(Next(p, e))
  {
    hide Numbering, PendingExact, Progress;
    ShapedNext(p, e);
    match e
    case Issue(verb, deadline, raw) => CallInvIssue(p, verb, deadline, raw);
    case Calling(k, c) => CallInvCall(p, k, c);
    case Working(h, w) => CallersUntouched(p, Next(p, e));
    case Wiring(w) => CallInvWire(p, w);
  }

  // ---------- both sides ----------

  /** The handler side always, and the caller side while the serial has not wrapped. */
  ghost predicate PeerInv(p: PeerState) { HandlerInv(p) && (|p.calls.tickets| <= WRAP ==> CallInv(p)) }

  lemma TicketsGrow(x: PeerState, e: Event)
    requires Shaped(x) && Enabled(x, e)
    ensures |x.calls.tickets| <= |Next(x, e).calls.tickets|
  {
    match e
    case Issue(_, _, _) =>
    case Calling(k, c) => hide CallId; assert |CallNext(x, k, c).calls.tickets| == |x.calls.tickets|;
    case Working(h, w) => assert WorkNext(x, h, w).calls == x.calls;
    case Wiring(w) => assert |WireNext(x, w).calls.tickets| == |x.calls.tickets|;
  }

  /** Every step of a peer, with any message arriving, keeps both. */
  lemma PeerInvNext(p: PeerState, e: Event)
    requires PeerInv(p) && Enabled(p, e)
    ensures Shaped(p) && PeerInv(Next(p, e)) && Shaped(Next(p, e))
  {
    ShapedNext(p, e);
    HandlerInvNext(p, e);
    hide Numbering, PendingExact, Progress, Settled, Sound, SendsAccounted, SpawnPending, SweepCovers, Next, Enabled;
    TicketsGrow(p, e);
    if |Next(p, e).calls.tickets| <= WRAP {
      CallInvNext(p, e);
    }
  }

  // ---------- a peer that has just been made ----------

  lemma FreshHandlers(p: PeerState)
    requires p.handlers == Handlers(map[], 0, [], [], map[], {}, 0) && Shaped(p)
             && p.stage == Open && p.reader == Reading
    ensures HandlerInv(p)
  {
    assert Live(p.handlers.pcs) == {} && Entered(p.handlers.pcs) == {};
  }

  lemma FreshCalls(p: PeerState)
    requires p.calls == Calls(0, map[], [], [], map[]) && Shaped(p) && p.reader == Reading
    ensures CallInv(p)
  {
    assert p.calls.serial == |p.calls.tickets| % WRAP;
  }

  lemma FreshPeer(instance: string, prefix: string)
    ensures PeerInv(Fresh(instance, prefix)) && Shaped(Fresh(instance, prefix))
  {
    hide HandlerInv, CallInv;
    FreshHandlers(Fresh(instance, prefix));
    FreshCalls(Fresh(instance, prefix));
  }

  /** What the accounting amounts to: at most 8 handlers hold a token and at most as many are in `active`, each
      entry is the one its handler will remove, and at most 32 calls are pending. */
  lemma PeerBounds(p: PeerState)
    requires PeerInv(p)
    ensures |p.handlers.active| <= p.handlers.slots <= SLOTS
    ensures forall id :: id in p.handlers.active ==>
              p.handlers.active[id] < |p.handlers.jobs| && p.handlers.jobs[p.handlers.active[id]].request.id == id
    ensures |p.calls.tickets| <= WRAP ==> |p.calls.pending| <= QUEUE
  {
    hide Responses, AdmissionsRecorded, Numbering, PendingExact, Progress, SendsAccounted, SweepCovers, SpawnPending;
    SubsetSize(Entered(p.handlers.pcs), Live(p.handlers.pcs));
  }
}
