/**
 One direction of the duplex connection, abstracted: the tickets of the calling side, the jobs of the
 answering side, and everything between them. `fwd` holds, in order, what has left the caller's `Call`s
 and not yet been dispatched by the other reader; `bwd` likewise for the way back. `cut` says that some
 of the forward traffic may have been dropped (a writer or reader stopped). The invariant is the
 exactly-once protocol; each lemma is one kind of step.
 */
module Exchange {
  import opened Basics
  import opened Envelope
  import opened PeerModel

  datatype Exchange = Exchange(
    tickets: seq<Ticket>, issued: map<string, nat>, jobs: seq<Job>, admitted: map<string, nat>,
    fwd: seq<Message>, bwd: seq<Message>, cut: bool)

  /** Identifiers name calls one to one. */
  ghost predicate Ledger(tickets: seq<Ticket>, issued: map<string, nat>) {
    && (forall k :: 0 <= k < |tickets| ==>
          IsRequest(tickets[k].request) && tickets[k].request.id in issued && issued[tickets[k].request.id] == k)
    && (forall id :: id in issued ==> issued[id] < |tickets| && tickets[issued[id]].request.id == id)
  }

  /** m is the request of a call, and that call has sent it. */
  ghost predicate SentRequest(tickets: seq<Ticket>, issued: map<string, nat>, m: Message) {
    && m.id in issued && issued[m.id] < |tickets|
    && tickets[issued[m.id]].sent && tickets[issued[m.id]].request == m
  }

  /** Every job is the one execution of a sent request, and its response carries that identifier. */
  ghost predicate JobsMatch(tickets: seq<Ticket>, issued: map<string, nat>, jobs: seq<Job>,
        admitted: map<string, nat>) {
    && (forall h :: 0 <= h < |jobs| ==>
          && SentRequest(tickets, issued, jobs[h].request)
          && jobs[h].request.id in admitted && admitted[jobs[h].request.id] == h)
    && (forall id :: id in admitted ==> admitted[id] < |jobs| && jobs[admitted[id]].request.id == id)
  }

  ghost predicate ResponsesShaped(jobs: seq<Job>) {
    forall h :: 0 <= h < |jobs| ==>
      && (jobs[h].queued ==> jobs[h].response.Some?)
      && (jobs[h].response.Some? ==> jobs[h].response.value.reply && jobs[h].response.value.id == jobs[h].request.id)
  }

  /** A request on its way is the sent request of one call, is there once, and was not yet admitted. */
  ghost predicate RequestsOnTheWay(tickets: seq<Ticket>, issued: map<string, nat>, admitted: map<string, nat>,
        fwd: seq<Message>) {
    && (forall i :: 0 <= i < |fwd| && IsRequest(fwd[i]) ==>
          SentRequest(tickets, issued, fwd[i]) && fwd[i].id !in admitted)
    && (forall i, j :: 0 <= i < j < |fwd| && IsRequest(fwd[i]) && IsRequest(fwd[j]) ==> fwd[i].id != fwd[j].id)
  }

  /** A cancel on its way is behind its request, or the request has been admitted. */
  ghost predicate CancelsBehind(tickets: seq<Ticket>, issued: map<string, nat>, admitted: map<string, nat>,
        fwd: seq<Message>) {
    forall j :: 0 <= j < |fwd| && IsCancel(fwd[j]) ==>
      && fwd[j].id in issued && issued[fwd[j].id] < |tickets|
      && (fwd[j].id in admitted || tickets[issued[fwd[j].id]].request in fwd[..j])
  }

  /** A sent request is on its way or admitted, unless traffic was cut. */
  ghost predicate Located(tickets: seq<Ticket>, admitted: map<string, nat>, fwd: seq<Message>, cut: bool) {
    cut || forall k :: 0 <= k < |tickets| && tickets[k].sent ==>
      tickets[k].request.id in admitted || tickets[k].request in fwd
  }

  /** The call has neither a reply in its channel nor one it took. */
  predicate Unanswered(t: Ticket) { t.slot.None? && t.taken.None? }

  /** m is the response computed for an admitted request, and has been queued. */
  ghost predicate QueuedResponse(jobs: seq<Job>, admitted: map<string, nat>, m: Message) {
    && m.id in admitted && admitted[m.id] < |jobs|
    && jobs[admitted[m.id]].queued && jobs[admitted[m.id]].response == Some(m)
  }

  /** A reply on its way is a queued response, is there once, and its call is unanswered. */
  ghost predicate RepliesOnTheWay(tickets: seq<Ticket>, issued: map<string, nat>, jobs: seq<Job>,
        admitted: map<string, nat>, bwd: seq<Message>) {
    && (forall i :: 0 <= i < |bwd| && bwd[i].reply ==>
          && QueuedResponse(jobs, admitted, bwd[i])
          && bwd[i].id in issued && issued[bwd[i].id] < |tickets| && Unanswered(tickets[issued[bwd[i].id]]))
    && (forall i, j :: 0 <= i < j < |bwd| && bwd[i].reply && bwd[j].reply ==> bwd[i].id != bwd[j].id)
  }

  /** m is the queued response of the job that ran request r itself. */
  ghost predicate IsResponseTo(jobs: seq<Job>, admitted: map<string, nat>, r: Message, m: Message) {
    && r.id in admitted && admitted[r.id] < |jobs|
    && jobs[admitted[r.id]] == Job(r, Some(m), true)
  }

  /** What reached a call is the response to its own request; a call that took one gets no other. */
  ghost predicate AnswersMatch(tickets: seq<Ticket>, jobs: seq<Job>, admitted: map<string, nat>) {
    forall k :: 0 <= k < |tickets| ==>
      && (tickets[k].slot.Some? ==>
            tickets[k].sent && tickets[k].taken.None?
            && IsResponseTo(jobs, admitted, tickets[k].request, tickets[k].slot.value))
      && (tickets[k].taken.Some? ==>
            tickets[k].sent && IsResponseTo(jobs, admitted, tickets[k].request, tickets[k].taken.value))
  }

  ghost predicate Inv(x: Exchange) {
    && Ledger(x.tickets, x.issued)
    && JobsMatch(x.tickets, x.issued, x.jobs, x.admitted)
    && ResponsesShaped(x.jobs)
    && RequestsOnTheWay(x.tickets, x.issued, x.admitted, x.fwd)
    && CancelsBehind(x.tickets, x.issued, x.admitted, x.fwd)
    && Located(x.tickets, x.admitted, x.fwd, x.cut)
    && RepliesOnTheWay(x.tickets, x.issued, x.jobs, x.admitted, x.bwd)
    && AnswersMatch(x.tickets, x.jobs, x.admitted)
  }

  // ---------- sequences ----------

  lemma Snoc(s: seq<Message>, m: Message)
    ensures forall i :: 0 <= i < |s| ==> (s + [m])[i] == s[i]
    ensures forall i :: 0 <= i <= |s| ==> (s + [m])[..i] == s[..i]
    ensures forall r :: r in s ==> r in s + [m]
  {
    forall i | 0 <= i <= |s| ensures (s + [m])[..i] == s[..i] {}
  }

  lemma Tail(s: seq<Message>)
    requires s != []
    ensures forall i :: 0 <= i < |s| - 1 ==> s[1..][i] == s[i + 1]
    ensures forall i, r :: 0 <= i < |s| - 1 && r in s[..i + 1] && r != s[0] ==> r in s[1..][..i]
    ensures forall r :: r in s && r != s[0] ==> r in s[1..]
  {
    forall i | 0 <= i < |s| - 1
      ensures s[..i + 1] == [s[0]] + s[1..][..i]
    {
    }
    assert s == [s[0]] + s[1..];
  }

  // ---------- traffic that does not concern this direction, and lost traffic ----------

  /** Forward traffic shortened to a prefix because a reader or writer stopped. */
  lemma CutForward(x: Exchange, fwd: seq<Message>)
    requires Inv(x) && fwd <= x.fwd
    ensures Inv(x.(fwd := fwd, cut := true))
  {
    hide Ledger, JobsMatch, ResponsesShaped, RepliesOnTheWay, AnswersMatch;
    forall j | 0 <= j < |fwd| ensures fwd[..j] == x.fwd[..j] {}
  }

  lemma CutBackward(x: Exchange, bwd: seq<Message>)
    requires Inv(x) && bwd <= x.bwd
    ensures Inv(x.(bwd := bwd))
  {
    hide Ledger, JobsMatch, ResponsesShaped, RequestsOnTheWay, CancelsBehind, Located, AnswersMatch;
    assert forall i :: 0 <= i < |bwd| ==> bwd[i] == x.bwd[i];
  }

  /** A reply of the caller's own handlers passes along. */
  lemma ForwardReply(x: Exchange, m: Message)
    requires Inv(x) && m.reply
    ensures Inv(x.(fwd := x.fwd + [m]))
  {
    hide Ledger, JobsMatch, ResponsesShaped, RepliesOnTheWay, AnswersMatch;
    Snoc(x.fwd, m);
  }

  /** A request or cancel of the other direction passes along. */
  lemma BackwardOther(x: Exchange, m: Message)
    requires Inv(x) && !m.reply
    ensures Inv(x.(bwd := x.bwd + [m]))
  {
    hide Ledger, JobsMatch, ResponsesShaped, RequestsOnTheWay, CancelsBehind, Located, AnswersMatch;
    Snoc(x.bwd, m);
  }

  lemma DropForward(x: Exchange)
    requires Inv(x) && x.fwd != [] && !IsRequest(x.fwd[0])
    ensures Inv(x.(fwd := x.fwd[1..]))
  {
    hide JobsMatch, ResponsesShaped, RepliesOnTheWay, AnswersMatch;
    Tail(x.fwd);
  }

  lemma DropBackward(x: Exchange)
    requires Inv(x) && x.bwd != []
    ensures Inv(x.(bwd := x.bwd[1..]))
  {
    hide Ledger, JobsMatch, ResponsesShaped, RequestsOnTheWay, CancelsBehind, Located, AnswersMatch;
    Tail(x.bwd);
  }

  // ---------- the steps of a call ----------

  /** The tickets tt continue ts: requests stay, and what was sent stays sent. */
  ghost predicate Continues(ts: seq<Ticket>, tt: seq<Ticket>) {
    && |ts| <= |tt|
    && forall i :: 0 <= i < |ts| ==> tt[i].request == ts[i].request && (ts[i].sent ==> tt[i].sent)
  }

  lemma LedgerKept(ts: seq<Ticket>, tt: seq<Ticket>, issued: map<string, nat>)
    requires Ledger(ts, issued) && Continues(ts, tt) && |ts| == |tt|
    ensures Ledger(tt, issued)
    ensures forall k :: 0 <= k < |ts| ==>
      IsRequest(ts[k].request) && ts[k].request.id in issued && issued[ts[k].request.id] == k
  {
  }

  lemma JobsKept(ts: seq<Ticket>, tt: seq<Ticket>, issued: map<string, nat>, it: map<string, nat>,
        jobs: seq<Job>, admitted: map<string, nat>)
    requires JobsMatch(ts, issued, jobs, admitted) && Continues(ts, tt)
    requires forall id :: id in issued ==> id in it && it[id] == issued[id]
    ensures JobsMatch(tt, it, jobs, admitted)
  {
  }

  lemma ForwardKept(ts: seq<Ticket>, tt: seq<Ticket>, issued: map<string, nat>, it: map<string, nat>,
        admitted: map<string, nat>, fwd: seq<Message>)
    requires Continues(ts, tt)
    requires forall id :: id in issued ==> id in it && it[id] == issued[id]
    requires RequestsOnTheWay(ts, issued, admitted, fwd) && CancelsBehind(ts, issued, admitted, fwd)
    ensures RequestsOnTheWay(tt, it, admitted, fwd) && CancelsBehind(tt, it, admitted, fwd)
  {
  }

  lemma Begin(x: Exchange, t: Ticket)
    requires Inv(x) && t.request.id !in x.issued && IsRequest(t.request) && t == Ticket(t.request, false, None, None)
    ensures Inv(x.(tickets := x.tickets + [t], issued := x.issued[t.request.id := |x.tickets|]))
  {
    hide JobsMatch, ResponsesShaped, RequestsOnTheWay, CancelsBehind;
    var tt, it := x.tickets + [t], x.issued[t.request.id := |x.tickets|];
    assert forall k :: 0 <= k < |x.tickets| ==> tt[k] == x.tickets[k];
    JobsKept(x.tickets, tt, x.issued, it, x.jobs, x.admitted);
    ForwardKept(x.tickets, tt, x.issued, it, x.admitted, x.fwd);
  }

  /** The tickets after call k has sent its request. */
  function Sent(tickets: seq<Ticket>, k: nat): seq<Ticket>
    requires k < |tickets|
  {
    tickets[k := tickets[k].(sent := true)]
  }

  lemma UnsentUnknown(ts: seq<Ticket>, issued: map<string, nat>, jobs: seq<Job>, admitted: map<string, nat>, k: nat)
    requires JobsMatch(ts, issued, jobs, admitted)
    requires k < |ts| && !ts[k].sent && ts[k].request.id in issued && issued[ts[k].request.id] == k
    ensures ts[k].request.id !in admitted
  {
  }

  lemma ForwardSnoc(ts: seq<Ticket>, issued: map<string, nat>, admitted: map<string, nat>, fwd: seq<Message>, k: nat)
    requires RequestsOnTheWay(ts, issued, admitted, fwd) && CancelsBehind(ts, issued, admitted, fwd)
    requires k < |ts| && !ts[k].sent && ts[k].request.id in issued && issued[ts[k].request.id] == k
    requires ts[k].request.id !in admitted && IsRequest(ts[k].request)
    ensures RequestsOnTheWay(Sent(ts, k), issued, admitted, fwd + [ts[k].request])
    ensures CancelsBehind(Sent(ts, k), issued, admitted, fwd + [ts[k].request])
  {
    Snoc(fwd, ts[k].request);
  }

  lemma LocatedSnoc(ts: seq<Ticket>, admitted: map<string, nat>, fwd: seq<Message>, cut: bool, k: nat)
    requires Located(ts, admitted, fwd, cut) && k < |ts|
    ensures Located(Sent(ts, k), admitted, fwd + [ts[k].request], cut)
  {
  }

  lemma AnswersSent(ts: seq<Ticket>, issued: map<string, nat>, jobs: seq<Job>, admitted: map<string, nat>,
        bwd: seq<Message>, k: nat)
    requires RepliesOnTheWay(ts, issued, jobs, admitted, bwd) && AnswersMatch(ts, jobs, admitted) && k < |ts|
    ensures RepliesOnTheWay(Sent(ts, k), issued, jobs, admitted, bwd) && AnswersMatch(Sent(ts, k), jobs, admitted)
  {
  }

  /** The request of call k enters the queue; it joins the traffic unless the way is cut. */
  lemma SendRequest(x: Exchange, k: nat)
    requires Inv(x) && k < |x.tickets| && !x.tickets[k].sent
    ensures Inv(x.(tickets := Sent(x.tickets, k), fwd := x.fwd + [x.tickets[k].request]))
    ensures x.cut ==> Inv(x.(tickets := Sent(x.tickets, k)))
  {
    hide Ledger, JobsMatch, ResponsesShaped, RequestsOnTheWay, CancelsBehind, RepliesOnTheWay, AnswersMatch;
    var ts, tt := x.tickets, Sent(x.tickets, k);
    LedgerKept(ts, tt, x.issued);
    JobsKept(ts, tt, x.issued, x.issued, x.jobs, x.admitted);
    ForwardKept(ts, tt, x.issued, x.issued, x.admitted, x.fwd);
    UnsentUnknown(ts, x.issued, x.jobs, x.admitted, k);
    ForwardSnoc(ts, x.issued, x.admitted, x.fwd, k);
    LocatedSnoc(ts, x.admitted, x.fwd, x.cut, k);
    AnswersSent(ts, x.issued, x.jobs, x.admitted, x.bwd, k);
  }

  lemma CancelSnoc(ts: seq<Ticket>, issued: map<string, nat>, admitted: map<string, nat>, fwd: seq<Message>, m: Message)
    requires RequestsOnTheWay(ts, issued, admitted, fwd) && CancelsBehind(ts, issued, admitted, fwd)
    requires IsCancel(m) && m.id in issued && issued[m.id] < |ts|
    requires m.id in admitted || ts[issued[m.id]].request in fwd
    ensures RequestsOnTheWay(ts, issued, admitted, fwd + [m]) && CancelsBehind(ts, issued, admitted, fwd + [m])
  {
    Snoc(fwd, m);
    assert (fwd + [m])[..|fwd|] == fwd;
  }

  /** The cancel of a sent call follows its request. */
  lemma SendCancel(x: Exchange, k: nat, m: Message)
    requires Inv(x) && k < |x.tickets| && x.tickets[k].sent && IsCancel(m) && m.id == x.tickets[k].request.id && !x.cut
    ensures Inv(x.(fwd := x.fwd + [m]))
  {
    hide Ledger, JobsMatch, ResponsesShaped, RequestsOnTheWay, CancelsBehind, RepliesOnTheWay, AnswersMatch;
    LedgerKept(x.tickets, x.tickets, x.issued);
    CancelSnoc(x.tickets, x.issued, x.admitted, x.fwd, m);
  }

  function Taken(tickets: seq<Ticket>, k: nat): seq<Ticket>
    requires k < |tickets|
  {
    tickets[k := tickets[k].(slot := None, taken := tickets[k].slot)]
  }

  lemma AnswersTaken(ts: seq<Ticket>, issued: map<string, nat>, jobs: seq<Job>, admitted: map<string, nat>,
        bwd: seq<Message>, k: nat)
    requires RepliesOnTheWay(ts, issued, jobs, admitted, bwd) && AnswersMatch(ts, jobs, admitted)
    requires k < |ts| && ts[k].slot.Some?
    ensures RepliesOnTheWay(Taken(ts, k), issued, jobs, admitted, bwd) && AnswersMatch(Taken(ts, k), jobs, admitted)
  {
    assert forall i :: 0 <= i < |bwd| && bwd[i].reply ==> issued[bwd[i].id] != k;
  }

  lemma TakeReply(x: Exchange, k: nat)
    requires Inv(x) && k < |x.tickets| && x.tickets[k].slot.Some?
    ensures Inv(x.(tickets := Taken(x.tickets, k)))
  {
    hide Ledger, JobsMatch, ResponsesShaped, RequestsOnTheWay, CancelsBehind, RepliesOnTheWay, AnswersMatch;
    var ts, tt := x.tickets, Taken(x.tickets, k);
    LedgerKept(ts, tt, x.issued);
    JobsKept(ts, tt, x.issued, x.issued, x.jobs, x.admitted);
    ForwardKept(ts, tt, x.issued, x.issued, x.admitted, x.fwd);
    AnswersTaken(ts, x.issued, x.jobs, x.admitted, x.bwd, k);
  }

  function Offered(tickets: seq<Ticket>, k: nat, m: Message): seq<Ticket>
    requires k < |tickets|
  {
    tickets[k := tickets[k].(slot := Some(m))]
  }

  lemma AnswersOffered(ts: seq<Ticket>, issued: map<string, nat>, jobs: seq<Job>, admitted: map<string, nat>,
        bwd: seq<Message>, k: nat)
    requires JobsMatch(ts, issued, jobs, admitted) && RepliesOnTheWay(ts, issued, jobs, admitted, bwd)
    requires AnswersMatch(ts, jobs, admitted)
    requires bwd != [] && bwd[0].reply && k < |ts| && bwd[0].id in issued && issued[bwd[0].id] == k
    ensures Unanswered(ts[k])
    ensures RepliesOnTheWay(Offered(ts, k, bwd[0]), issued, jobs, admitted, bwd[1..])
    ensures AnswersMatch(Offered(ts, k, bwd[0]), jobs, admitted)
  {
    Tail(bwd);
    var m := bwd[0];
    assert QueuedResponse(jobs, admitted, m);
    assert SentRequest(ts, issued, jobs[admitted[m.id]].request);
    assert forall i :: 0 < i < |bwd| && bwd[i].reply ==> bwd[i].id != m.id;
  }

  lemma OthersAreOther(ts: seq<Ticket>, issued: map<string, nat>)
    requires Ledger(ts, issued)
    ensures forall id, jd :: id in issued && jd in issued && id != jd ==> issued[id] != issued[jd]
  {
  }

  /** The reader hands the reply at the head to the call it answers: its channel is empty. */
  lemma Deliver(x: Exchange, k: nat)
    requires Inv(x) && x.bwd != [] && x.bwd[0].reply && k < |x.tickets| && x.tickets[k].request.id == x.bwd[0].id
    ensures Unanswered(x.tickets[k])
    ensures Inv(x.(tickets := Offered(x.tickets, k, x.bwd[0]), bwd := x.bwd[1..]))
  {
    hide Ledger, JobsMatch, ResponsesShaped, RequestsOnTheWay, CancelsBehind, RepliesOnTheWay, AnswersMatch;
    var ts, tt := x.tickets, Offered(x.tickets, k, x.bwd[0]);
    LedgerKept(ts, tt, x.issued);
    OthersAreOther(ts, x.issued);
    JobsKept(ts, tt, x.issued, x.issued, x.jobs, x.admitted);
    ForwardKept(ts, tt, x.issued, x.issued, x.admitted, x.fwd);
    AnswersOffered(ts, x.issued, x.jobs, x.admitted, x.bwd, k);
  }

  // ---------- the steps of a handler ----------

  lemma ForwardAdmit(ts: seq<Ticket>, issued: map<string, nat>, admitted: map<string, nat>, fwd: seq<Message>, h: nat)
    requires RequestsOnTheWay(ts, issued, admitted, fwd) && CancelsBehind(ts, issued, admitted, fwd)
    requires fwd != [] && IsRequest(fwd[0])
    requires forall id :: id in issued && issued[id] < |ts| ==> ts[issued[id]].request.id == id
    ensures SentRequest(ts, issued, fwd[0]) && fwd[0].id !in admitted
    ensures RequestsOnTheWay(ts, issued, admitted[fwd[0].id := h], fwd[1..])
    ensures CancelsBehind(ts, issued, admitted[fwd[0].id := h], fwd[1..])
  {
    Tail(fwd);
  }

  lemma JobsAdmit(ts: seq<Ticket>, issued: map<string, nat>, jobs: seq<Job>, admitted: map<string, nat>, m: Message)
    requires JobsMatch(ts, issued, jobs, admitted) && ResponsesShaped(jobs)
    requires SentRequest(ts, issued, m) && m.id !in admitted
    ensures JobsMatch(ts, issued, jobs + [Job(m, None, false)], admitted[m.id := |jobs|])
    ensures ResponsesShaped(jobs + [Job(m, None, false)])
  {
  }

  lemma LocatedAdmit(ts: seq<Ticket>, admitted: map<string, nat>, fwd: seq<Message>, cut: bool, h: nat)
    requires Located(ts, admitted, fwd, cut) && fwd != []
    ensures Located(ts, admitted[fwd[0].id := h], fwd[1..], cut)
  {
    Tail(fwd);
  }

  lemma AnswersAdmit(ts: seq<Ticket>, issued: map<string, nat>, jobs: seq<Job>, admitted: map<string, nat>,
        bwd: seq<Message>, j: Job)
    requires RepliesOnTheWay(ts, issued, jobs, admitted, bwd) && AnswersMatch(ts, jobs, admitted)
             && j.request.id !in admitted
    ensures RepliesOnTheWay(ts, issued, jobs + [j], admitted[j.request.id := |jobs|], bwd)
    ensures AnswersMatch(ts, jobs + [j], admitted[j.request.id := |jobs|])
  {
  }

  /** The reader admits the request at the head. */
  lemma Admit(x: Exchange)
    requires Inv(x) && x.fwd != [] && IsRequest(x.fwd[0])
    ensures var m := x.fwd[0];
            Inv(x.(fwd := x.fwd[1..], jobs := x.jobs + [Job(m, None, false)], admitted := x.admitted[m.id := |x.jobs|]))
  {
    hide JobsMatch, ResponsesShaped, RequestsOnTheWay, CancelsBehind, Located, RepliesOnTheWay, AnswersMatch;
    var m := x.fwd[0];
    ForwardAdmit(x.tickets, x.issued, x.admitted, x.fwd, |x.jobs|);
    JobsAdmit(x.tickets, x.issued, x.jobs, x.admitted, m);
    LocatedAdmit(x.tickets, x.admitted, x.fwd, x.cut, |x.jobs|);
    AnswersAdmit(x.tickets, x.issued, x.jobs, x.admitted, x.bwd, Job(m, None, false));
  }

  lemma JobsUpdate(ts: seq<Ticket>, issued: map<string, nat>, jobs: seq<Job>, admitted: map<string, nat>,
        h: nat, j: Job)
    requires JobsMatch(ts, issued, jobs, admitted) && h < |jobs| && j.request == jobs[h].request
    ensures JobsMatch(ts, issued, jobs[h := j], admitted)
    ensures SentRequest(ts, issued, jobs[h].request)
    ensures jobs[h].request.id in admitted && admitted[jobs[h].request.id] == h
  {
  }

  lemma AnswersUpdate(ts: seq<Ticket>, issued: map<string, nat>, jobs: seq<Job>, admitted: map<string, nat>,
        bwd: seq<Message>, h: nat, j: Job)
    requires RepliesOnTheWay(ts, issued, jobs, admitted, bwd) && AnswersMatch(ts, jobs, admitted)
    requires h < |jobs| && !jobs[h].queued
    ensures RepliesOnTheWay(ts, issued, jobs[h := j], admitted, bwd) && AnswersMatch(ts, jobs[h := j], admitted)
    ensures forall k :: 0 <= k < |ts| && ts[k].request.id in admitted && admitted[ts[k].request.id] == h ==>
            Unanswered(ts[k])
    ensures forall i :: 0 <= i < |bwd| && bwd[i].reply ==> admitted[bwd[i].id] != h
  {
  }

  lemma Respond(x: Exchange, h: nat, m: Message)
    requires Inv(x) && h < |x.jobs| && !x.jobs[h].queued && m.reply && m.id == x.jobs[h].request.id
    ensures Inv(x.(jobs := x.jobs[h := x.jobs[h].(response := Some(m))]))
  {
    hide Ledger, JobsMatch, RequestsOnTheWay, CancelsBehind, Located, RepliesOnTheWay, AnswersMatch;
    var j := x.jobs[h].(response := Some(m));
    JobsUpdate(x.tickets, x.issued, x.jobs, x.admitted, h, j);
    AnswersUpdate(x.tickets, x.issued, x.jobs, x.admitted, x.bwd, h, j);
  }

  function Queued(jobs: seq<Job>, h: nat): seq<Job>
    requires h < |jobs|
  {
    jobs[h := jobs[h].(queued := true)]
  }

  lemma BackwardSnoc(ts: seq<Ticket>, issued: map<string, nat>, jobs: seq<Job>, admitted: map<string, nat>,
        bwd: seq<Message>, m: Message)
    requires RepliesOnTheWay(ts, issued, jobs, admitted, bwd) && QueuedResponse(jobs, admitted, m)
    requires m.id in issued && issued[m.id] < |ts| && Unanswered(ts[issued[m.id]])
    requires forall i :: 0 <= i < |bwd| && bwd[i].reply ==> bwd[i].id != m.id
    ensures RepliesOnTheWay(ts, issued, jobs, admitted, bwd + [m])
  {
    Snoc(bwd, m);
  }

  /** A handler queues its response; it joins the traffic unless the way back is cut. */
  lemma Queue(x: Exchange, h: nat)
    requires Inv(x) && h < |x.jobs| && !x.jobs[h].queued && x.jobs[h].response.Some?
    ensures Inv(x.(jobs := Queued(x.jobs, h)))
    ensures Inv(x.(jobs := Queued(x.jobs, h), bwd := x.bwd + [x.jobs[h].response.value]))
  {
    hide Ledger, JobsMatch, RequestsOnTheWay, CancelsBehind, Located, RepliesOnTheWay, AnswersMatch;
    var j := x.jobs[h].(queued := true);
    JobsUpdate(x.tickets, x.issued, x.jobs, x.admitted, h, j);
    AnswersUpdate(x.tickets, x.issued, x.jobs, x.admitted, x.bwd, h, j);
    BackwardSnoc(x.tickets, x.issued, Queued(x.jobs, h), x.admitted, x.bwd, j.response.value);
  }
}
