/**
 What travels between two joined peers: what a call asks for is what the other side's handler is given, and
 what that handler comes to is what the call returns. It is stated over the events of a run and in the fields of
 messages.
 */
module CallContents {
  import opened Envelope
  import opened PeerModel
  import opened PeerInvariants
  import opened PeerHistory
  import opened Duplex
  import opened DuplexRuns

  /** The peer of either side, and whether a move is that side's event e. */
  function Side(s: Sys, byHost: bool): PeerState { if byHost then s.host else s.plugin }

  predicate Does(m: Move, byHost: bool, e: Event) { m == if byHost then HostMoves(e) else PluginMoves(e) }

  /** A move of one side: an event of that peer, which leaves the other alone. */
  ghost predicate StepsBy(s: Sys, m: Move, t: Sys, byHost: bool) {
    if m.HostMoves? == byHost then
      && Does(m, byHost, m.e) && Shaped(Side(s, byHost)) && Enabled(Side(s, byHost), m.e)
      && Side(t, byHost) == Next(Side(s, byHost), m.e)
    else Side(t, byHost) == Side(s, byHost)
  }

  lemma RunSteps(r: Run, i: nat, byHost: bool)
    requires IsRun(r) && i < |r.moves|
    ensures StepsBy(r.states[i], r.moves[i], r.states[i + 1], byHost)
  {
    hide Enabled, Next, Shaped;
    assert CanMove(r.states[i], r.moves[i]) && r.states[i + 1] == Moved(r.states[i], r.moves[i]);
  }

  // ---------- what a call asks for ----------

  lemma CountsOn(n: nat)
    ensures (n % WRAP + 1) % WRAP == (n + 1) % WRAP
  {
  }

  lemma TicketsAlong(p: PeerState, m: Move, s: Sys, t: Sys, byHost: bool)
    requires StepsBy(s, m, t, byHost) && p == Side(s, byHost)
    ensures m.HostMoves? == byHost ==> TicketsStay(p, m.e, Side(t, byHost)) && JobsStay(p, m.e, Side(t, byHost))
  {
    if m.HostMoves? == byHost {
      EventTicketsStay(p, m.e);
      EventStays(p, m.e);
    }
  }

  lemma Idle(r: Run, i: nat, byHost: bool)
    requires IsRun(r) && i < |r.moves| && r.moves[i].HostMoves? != byHost
    ensures Side(r.states[i + 1], byHost) == Side(r.states[i], byHost)
  {
    hide Enabled, Next, Shaped;
    RunSteps(r, i, byHost);
  }

  lemma Active(r: Run, i: nat, byHost: bool)
    requires IsRun(r) && i < |r.moves| && r.moves[i].HostMoves? == byHost
    ensures Does(r.moves[i], byHost, r.moves[i].e)
    ensures var p, e, q := Side(r.states[i], byHost), r.moves[i].e, Side(r.states[i + 1], byHost);
            TicketsStay(p, e, q) && JobsStay(p, e, q)
  {
    hide Enabled, Next, Shaped, TicketsStay, JobsStay;
    RunSteps(r, i, byHost);
    TicketsAlong(Side(r.states[i], byHost), r.moves[i], r.states[i], r.states[i + 1], byHost);
  }

  lemma StartsEmpty(r: Run, byHost: bool)
    requires IsRun(r)
    ensures var p := Side(r.states[0], byHost); p.calls.tickets == [] && p.calls.serial == 0 && p.handlers.jobs == []
  {
    var a, b :| r.states[0] == Start(a, b);
  }

  lemma SerialStays(p: PeerState, e: Event, q: PeerState)
    requires TicketsStay(p, e, q) && p.calls.serial == |p.calls.tickets| % WRAP
    ensures q.calls.serial == |q.calls.tickets| % WRAP
  {
    hide Asks;
    CountsOn(|p.calls.tickets|);
  }

  lemma {:induction false} SerialCounts(r: Run, j: nat, byHost: bool)
    requires IsRun(r) && j <= |r.moves|
    ensures Side(r.states[j], byHost).calls.serial == |Side(r.states[j], byHost).calls.tickets| % WRAP
  {
    StartsEmpty(r, byHost);
    if j > 0 {
      hide TicketsStay, JobsStay, CanMove, Moved;
      SerialCounts(r, j - 1, byHost);
      if r.moves[j - 1].HostMoves? == byHost {
        Active(r, j - 1, byHost);
        SerialStays(Side(r.states[j - 1], byHost), r.moves[j - 1].e, Side(r.states[j], byHost));
      } else {
        Idle(r, j - 1, byHost);
      }
    }
  }

  /** The i-th move is the call that became the k-th of that side. */
  ghost predicate IssuesAt(r: Run, i: nat, byHost: bool, k: nat, verb: string, deadline: nat, raw: string) {
    && i < |r.moves| && i < |r.states| && Does(r.moves[i], byHost, Issue(verb, deadline, raw))
    && |Side(r.states[i], byHost).calls.tickets| == k
  }

  /** In every run: the k-th call of a side was made by one move, and its request asks for exactly that. */
  lemma {:induction false} IssuedBy(r: Run, j: nat, byHost: bool, k: nat)
    returns (i: nat, verb: string, deadline: nat, raw: string)
    requires IsRun(r) && j <= |r.moves| && k < |Side(r.states[j], byHost).calls.tickets|
    ensures i < j && IssuesAt(r, i, byHost, k, verb, deadline, raw)
    ensures var p := Side(r.states[j], byHost); Asks(p.calls.tickets[k].request, p, k, verb, deadline, raw)
    decreases j
  {
    if j == 0 {
      StartsEmpty(r, byHost);
      assert false;
    } else {
      hide StepsBy, JobsStay, Asks, CanMove, Moved;
      var p, q := Side(r.states[j - 1], byHost), Side(r.states[j], byHost);
      if r.moves[j - 1].HostMoves? == byHost {
        Active(r, j - 1, byHost);
        SerialCounts(r, j - 1, byHost);
        if k < |p.calls.tickets| {
          i, verb, deadline, raw := IssuedBy(r, j - 1, byHost, k);
          AsksSame(p.calls.tickets[k].request, p, q, k, verb, deadline, raw);
        } else {
          var e := r.moves[j - 1].e;
          i, verb, deadline, raw := j - 1, e.verb, e.deadline, e.raw;
          AsksSame(q.calls.tickets[k].request, p, q, k, verb, deadline, raw);
        }
      } else {
        Idle(r, j - 1, byHost);
        i, verb, deadline, raw := IssuedBy(r, j - 1, byHost, k);
      }
    }
  }

  lemma AsksSame(m: Message, p: PeerState, q: PeerState, k: nat, verb: string, deadline: nat, raw: string)
    requires Asks(m, p, k, verb, deadline, raw) && q.instance == p.instance && q.prefix == p.prefix
    ensures Asks(m, q, k, verb, deadline, raw)
  {
  }

  // ---------- what a handler comes to ----------

  /** In every run: a handler that has a response came to its end in one move, and the response carries that. */
  lemma {:induction false} FinishedBy(r: Run, j: nat, byHost: bool, h: nat) returns (f: nat, o: Outcome)
    requires IsRun(r) && j <= |r.moves| && h < |Side(r.states[j], byHost).handlers.jobs|
    requires Side(r.states[j], byHost).handlers.jobs[h].response.Some?
    ensures f < j && Does(r.moves[f], byHost, Working(h, WorkEvent.Finish(o)))
    ensures h < |Side(r.states[f], byHost).handlers.jobs|
    ensures var p, job := Side(r.states[j], byHost), Side(r.states[j], byHost).handlers.jobs[h];
            && Carries(job.response.value, p.instance, job.request.id, o)
            && Side(r.states[f], byHost).handlers.jobs[h].request == job.request
    decreases j
  {
    if j == 0 {
      StartsEmpty(r, byHost);
      assert false;
    } else {
      hide StepsBy, TicketsStay, Carries, CanMove, Moved;
      var p, q := Side(r.states[j - 1], byHost), Side(r.states[j], byHost);
      if r.moves[j - 1].HostMoves? == byHost {
        Active(r, j - 1, byHost);
        var e := r.moves[j - 1].e;
        if e.Working? && e.w.Finish? && e.h == h {
          f, o := j - 1, e.w.outcome;
        } else {
          f, o := FinishedBy(r, j - 1, byHost, h);
        }
      } else {
        Idle(r, j - 1, byHost);
        f, o := FinishedBy(r, j - 1, byHost, h);
      }
    }
  }

  lemma {:induction false} ProperAlong(r: Run, j: nat, byHost: bool)
    requires IsRun(r) && j <= |r.moves|
    ensures var p := Side(r.states[j], byHost); RepliesProper(p) && PendingNames(p.calls)
  {
    if j == 0 {
      var a, b :| r.states[0] == Start(a, b);
    } else {
      hide RepliesProper, PendingNames, Shaped, Enabled, Next;
      ProperAlong(r, j - 1, byHost);
      RunSteps(r, j - 1, byHost);
      if r.moves[j - 1].HostMoves? == byHost {
        StepRepliesProper(Side(r.states[j - 1], byHost), r.moves[j - 1].e);
      }
    }
  }

  // ---------- end to end ----------

  /** The result of a call whose handler came to o: the value it marshalled, its error text, or its panic. */
  ghost predicate Tells(result: CallResult, o: Outcome) {
    && (forall v :: result == Decodes(v) <==> o == Value(v))
    && (forall t :: result == Fails(t) <==>
          || o == Failed(t) || o == Unencodable(t)
          || (o.Panicked? && t == "special: handler panic: " + o.detail))
  }

  lemma ProperTells(m: Message, instance: string, id: string, o: Outcome)
    requires Carries(m, instance, id, o) && (m.error == "") != (m.payload == "")
    ensures Tells(MadeOf(m), o)
  {
  }

  lemma InstanceKept(r: Run, i: nat, byHost: bool)
    requires IsRun(r) && i < |r.moves|
    ensures Side(r.states[i + 1], byHost).instance == Side(r.states[i], byHost).instance
  {
    hide Enabled, Next, Shaped, TicketsStay;
    if r.moves[i].HostMoves? == byHost {
      Active(r, i, byHost);
    } else {
      Idle(r, i, byHost);
    }
  }

  lemma RunSysInv(r: Run, j: nat)
    requires IsRun(r) && j <= |r.moves|
    ensures SysInv(r.states[j])
  {
    hide SysInv;
    RunInv(r, j);
  }

  /** In every run, of two sides that both run this code: the handler that runs the request of a call is given
      exactly the method, deadline and payload of that call. */
  lemma HandlerGetsCall(r: Run, j: nat, byHost: bool, k: nat, h: nat)
    returns (i: nat, verb: string, deadline: nat, raw: string)
    requires IsRun(r) && j <= |r.moves| && Unwrapped(r.states[j])
    requires var x, y := Side(r.states[j], byHost), Side(r.states[j], !byHost);
             && k < |x.calls.tickets| && h < |y.handlers.jobs|
             && y.handlers.jobs[h].request.id == x.calls.tickets[k].request.id
    ensures i < j && IssuesAt(r, i, byHost, k, verb, deadline, raw)
    ensures var m := Side(r.states[j], !byHost).handlers.jobs[h].request;
            m.verb == verb && m.deadline == deadline && m.payload == raw
  {
    hide SysInv, Unwrapped, IssuesAt, CanMove, Moved;
    i, verb, deadline, raw := IssuedBy(r, j, byHost, k);
    RunSysInv(r, j);
    JobIsTicket(r.states[j], Side(r.states[j], byHost), Side(r.states[j], !byHost), k, h);
  }

  lemma JobIsTicket(s: Sys, x: PeerState, y: PeerState, k: nat, h: nat)
    requires SysInv(s) && Unwrapped(s) && Facing(s, x, y)
    requires k < |x.calls.tickets| && h < |y.handlers.jobs|
    requires y.handlers.jobs[h].request.id == x.calls.tickets[k].request.id
    ensures y.handlers.jobs[h].request == x.calls.tickets[k].request
  {
    var xy, yx := FactsOf(s, x, y);
    var v := View(x, y, xy, yx);
    hide SysInv, HandlerInv, CallInv;
    assert X.SentRequest(v.tickets, v.issued, v.jobs[h].request);
  }

  /** In every such run, for a reply that a call took: one handler of the other side alone ran its request, and came to
      its end in one move before; and the reply tells of exactly that. */
  lemma TakenTells(r: Run, j: nat, byHost: bool, k: nat) returns (h: nat, f: nat, o: Outcome)
    requires IsRun(r) && j <= |r.moves| && Unwrapped(r.states[j])
    requires k < |Side(r.states[j], byHost).calls.tickets| && Side(r.states[j], byHost).calls.tickets[k].taken.Some?
    ensures var t, jobs := Side(r.states[j], byHost).calls.tickets[k], Side(r.states[j], !byHost).handlers.jobs;
            && h < |jobs| && jobs[h].request == t.request
            && (forall i :: 0 <= i < |jobs| && jobs[i].request.id == t.request.id ==> i == h)
            && f < j && Does(r.moves[f], !byHost, Working(h, WorkEvent.Finish(o)))
            && Tells(MadeOf(t.taken.value), o)
  {
    hide SysInv, Unwrapped, Carries, Tells, PastSend, CanMove, Moved;
    RunSysInv(r, j);
    var x, y := Side(r.states[j], byHost), Side(r.states[j], !byHost);
    h := AnsweredBy(r.states[j], x, y, k);
    f, o := FinishedBy(r, j, !byHost, h);
    ProperAlong(r, j, byHost);
    ProperTells(x.calls.tickets[k].taken.value, y.instance, x.calls.tickets[k].request.id, o);
  }

  lemma TookReply(s: Sys, x: PeerState, y: PeerState, k: nat)
    requires SysInv(s) && Unwrapped(s) && Facing(s, x, y) && k < |x.calls.pcs| && EndedAs(x.calls.pcs[k], Took)
    ensures k < |x.calls.tickets| && x.calls.tickets[k].taken.Some?
  {
    var xy, yx := FactsOf(s, x, y);
    hide SysInv, HandlerInv, Numbering, PendingExact, Settled, DeliveryMatched, X.Inv;
  }

  /** So a call that ended with a reply returns the payload v exactly when the one handler that ran it came to the
      value v, and the error t exactly when that handler failed with t, panicked with what t says, or had a value that
      could not be encoded. */
  lemma CallReturns(r: Run, j: nat, byHost: bool, k: nat) returns (h: nat, f: nat, o: Outcome)
    requires IsRun(r) && j <= |r.moves| && Unwrapped(r.states[j])
    requires k < |Side(r.states[j], byHost).calls.pcs| && EndedAs(Side(r.states[j], byHost).calls.pcs[k], Took)
    ensures var x, jobs := Side(r.states[j], byHost), Side(r.states[j], !byHost).handlers.jobs;
            && k < |x.calls.tickets| && x.calls.tickets[k].taken.Some?
            && h < |jobs| && jobs[h].request == x.calls.tickets[k].request
            && f < j && Does(r.moves[f], !byHost, Working(h, WorkEvent.Finish(o)))
            && Tells(MadeOf(x.calls.tickets[k].taken.value), o)
  {
    hide SysInv, Unwrapped, Tells, EndedAs, CanMove, Moved;
    RunSysInv(r, j);
    TookReply(r.states[j], Side(r.states[j], byHost), Side(r.states[j], !byHost), k);
    h, f, o := TakenTells(r, j, byHost, k);
  }
}
