/**
 What the replies of the served plugin are, end to end: each is the answer that the serial execution of the
 lock winners gives to the round of that very call.
 */
module ServedReplies {
  import opened Basics
  import opened Envelope
  import opened PeerModel
  import opened PeerHistory
  import opened DuplexRuns
  import opened SerialHost
  import opened ServedPlugin
  import LifecycleAnswers

  /** The i-th round is that of handler order[i]: its request, decoded, and its answer. */
  ghost predicate RoundsOwned(s: Serving, p: Provider) {
    var jobs := s.sys.plugin.handlers.jobs;
    && |s.order| == |s.machine.rounds| == |s.machine.answers|
    && forall i :: 0 <= i < |s.order| ==>
         && s.order[i] < |jobs| && s.order[i] in s.results && s.results[s.order[i]] == s.machine.answers[i]
         && s.machine.rounds[i].request == p.Decode(jobs[s.order[i]].request)
  }

  /** An invocation that is over won the gate, or was told busy. */
  ghost predicate ResultsExplained(s: Serving) {
    forall h :: h in s.results ==>
      h in s.entered && (h in s.order || (h in s.machine.busy && s.results[h] == BUSY))
  }

  ghost predicate HolderOwned(s: Serving, p: Provider) {
    var jobs, gate := s.sys.plugin.handlers.jobs, s.machine.gate;
    gate.Held? ==>
      && gate.who < |jobs| && gate.request == p.Decode(jobs[gate.who].request)
      && gate.who in s.entered && gate.who !in s.results
  }

  /** A response is made of what its invocation came to. */
  ghost predicate ResponsesOwned(s: Serving) {
    var jobs := s.sys.plugin.handlers.jobs;
    forall h: nat :: h < |jobs| && jobs[h].response.Some? ==>
      && h in s.results
      && Carries(jobs[h].response.value, s.sys.plugin.instance, jobs[h].request.id, s.results[h])
  }

  ghost predicate Owned(s: Serving, p: Provider) {
    && G.InStep(s.machine, p.features, p.encode)
    && RoundsOwned(s, p) && ResultsExplained(s) && HolderOwned(s, p) && ResponsesOwned(s)
  }

  // ---------- moves of the peers ----------

  /** Requests and responses stay what they are, except the response of the handler that comes to its end. */
  ghost predicate JobsKept(p: PeerState, q: PeerState, ended: set<nat>) {
    && q.instance == p.instance && |p.handlers.jobs| <= |q.handlers.jobs|
    && (forall h: nat :: h < |p.handlers.jobs| ==> q.handlers.jobs[h].request == p.handlers.jobs[h].request)
    && (forall h: nat :: h < |p.handlers.jobs| && h !in ended ==>
          q.handlers.jobs[h].response == p.handlers.jobs[h].response)
    && (forall h: nat :: |p.handlers.jobs| <= h < |q.handlers.jobs| ==> q.handlers.jobs[h].response.None?)
  }

  lemma MoveStays(s: Sys, m: Move)
    requires CanMove(s, m)
    ensures JobsKept(s.plugin, Moved(s, m).plugin, if IsFinish(m) then {m.e.h} else {})
  {
    hide Enabled, Next, Shaped, Carries;
    if m.PluginMoves? {
      EventStays(s.plugin, m.e);
    }
  }

  /** The gate's book-keeping does not notice the peers. */
  lemma SysStays(s: Serving, sys: Sys, ended: set<nat>, p: Provider)
    requires Owned(s, p) && JobsKept(s.sys.plugin, sys.plugin, ended)
    ensures var t := s.(sys := sys);
            G.InStep(t.machine, p.features, p.encode) && RoundsOwned(t, p) && ResultsExplained(t) && HolderOwned(t, p)
  {
    hide G.InStep, ResponsesOwned;
  }

  lemma WireOwned(s: Serving, m: Move, p: Provider)
    requires Owned(s, p) && CanMove(s.sys, m) && !IsFinish(m)
    ensures Owned(s.(sys := Moved(s.sys, m)), p)
  {
    MoveStays(s.sys, m);
    SysStays(s, Moved(s.sys, m), {}, p);
    hide G.InStep, CanMove, Moved, Carries, RoundsOwned, ResultsExplained, HolderOwned;
  }

  lemma FinishResponds(s: Sys, h: nat, outcome: Outcome)
    requires CanMove(s, PluginMoves(Working(h, WorkEvent.Finish(outcome))))
    ensures var jobs := s.plugin.handlers.jobs;
            var after := Moved(s, PluginMoves(Working(h, WorkEvent.Finish(outcome)))).plugin.handlers.jobs;
            && h < |jobs| && h < |after|
            && after[h].response.Some?
            && Carries(after[h].response.value, s.plugin.instance, jobs[h].request.id, outcome)
  {
    EventStays(s.plugin, Working(h, WorkEvent.Finish(outcome)));
  }

  /** The one handler that comes to its end responds with what its invocation came to. */
  ghost predicate RespondsWith(s: Serving, sys: Sys, h: nat) {
    var jobs, after := s.sys.plugin.handlers.jobs, sys.plugin.handlers.jobs;
    && h in s.results && h < |jobs| && h < |after| && after[h].response.Some?
    && Carries(after[h].response.value, s.sys.plugin.instance, jobs[h].request.id, s.results[h])
  }

  lemma ResponsesKept(s: Serving, sys: Sys, h: nat)
    requires ResponsesOwned(s) && JobsKept(s.sys.plugin, sys.plugin, {h}) && RespondsWith(s, sys, h)
    ensures ResponsesOwned(s.(sys := sys))
  {
    hide Carries;
  }

  lemma ResponseOwned(s: Serving, sys: Sys, h: nat, p: Provider)
    requires Owned(s, p) && JobsKept(s.sys.plugin, sys.plugin, {h}) && RespondsWith(s, sys, h)
    ensures Owned(s.(sys := sys), p)
  {
    SysStays(s, sys, {h}, p);
    ResponsesKept(s, sys, h);
    hide G.InStep, RespondsWith, JobsKept, RoundsOwned, ResultsExplained, HolderOwned, ResponsesOwned;
  }

  lemma FinishOwned(s: Serving, h: nat, p: Provider)
    requires Owned(s, p) && h in s.results && CanMove(s.sys, PluginMoves(Working(h, WorkEvent.Finish(s.results[h]))))
    ensures Owned(s.(sys := Moved(s.sys, PluginMoves(Working(h, WorkEvent.Finish(s.results[h]))))), p)
  {
    var m := PluginMoves(Working(h, WorkEvent.Finish(s.results[h])));
    FinishResponds(s.sys, h, s.results[h]);
    MoveStays(s.sys, m);
    hide Owned, CanMove, Moved, Carries, JobsKept;
    ResponseOwned(s, Moved(s.sys, m), h, p);
  }

  // ---------- the gate ----------

  lemma LockOwned(s: Serving, h: nat, p: Provider)
    requires Owned(s, p) && h < |s.sys.plugin.handlers.jobs| && h !in s.entered
    ensures var request := p.Decode(s.sys.plugin.handlers.jobs[h].request);
            Owned(s.(machine := G.Next(s.machine, G.Try(h, request), p.features, p.encode), entered := s.entered + {h},
                     results := if s.machine.gate.Free? then s.results else s.results[h := BUSY]), p)
  {
    var request := p.Decode(s.sys.plugin.handlers.jobs[h].request);
    G.InStepNext(s.machine, G.Try(h, request), p.features, p.encode);
    hide G.InStep, Carries;
    assert h !in s.results;
  }

  lemma HolderSteps(s: Serving, e: G.Event, p: Provider)
    requires Owned(s, p) && G.Enabled(s.machine, e) && (e.Proceed? || e.Back?)
    ensures Owned(s.(machine := G.Next(s.machine, e, p.features, p.encode)), p)
  {
    G.InStepNext(s.machine, e, p.features, p.encode);
    hide G.InStep, Carries, Lifecycle.Begin, Lifecycle.End;
  }

  lemma UnlockRounds(s: Serving, p: Provider)
    requires RoundsOwned(s, p) && HolderOwned(s, p) && CanAct(s, Unlock)
    ensures RoundsOwned(Acted(s, Unlock, p), p)
  {
  }

  lemma UnlockResults(s: Serving, p: Provider)
    requires ResultsExplained(s) && HolderOwned(s, p) && ResponsesOwned(s) && CanAct(s, Unlock)
    ensures ResultsExplained(Acted(s, Unlock, p)) && ResponsesOwned(Acted(s, Unlock, p))
  {
    hide Carries;
  }

  lemma UnlockOwned(s: Serving, p: Provider)
    requires Owned(s, p) && CanAct(s, Unlock)
    ensures Owned(Acted(s, Unlock, p), p)
  {
    G.InStepNext(s.machine, G.Leave, p.features, p.encode);
    UnlockRounds(s, p);
    UnlockResults(s, p);
    hide G.InStep, RoundsOwned, ResultsExplained, ResponsesOwned;
  }

  lemma ActOwned(s: Serving, a: Act, p: Provider)
    requires Owned(s, p) && CanAct(s, a)
    ensures Owned(Acted(s, a, p), p)
  {
    hide Owned, Lifecycle.Begin, Lifecycle.End;
    match a
    case Wire(m) => WireOwned(s, m, p);
    case Lock(h) => LockOwned(s, h, p);
    case Proceed => HolderSteps(s, G.Proceed, p);
    case Back(ended) => HolderSteps(s, G.Back(ended), p);
    case Unlock => UnlockOwned(s, p);
    case Finish(h) => FinishOwned(s, h, p);
  }

  lemma {:induction false} SessionOwned(r: Session, i: nat, p: Provider)
    requires IsServed(r, p) && i <= |r.acts|
    ensures Owned(r.states[i], p)
  {
    hide CanAct, Acted;
    if i == 0 {
      var a, b :| r.states[0] == Idle(a, b);
    } else {
      hide Owned;
      SessionOwned(r, i - 1, p);
      ActOwned(r.states[i - 1], r.acts[i - 1], p);
    }
  }

  /** The reply is the answer of the serial execution to the i-th round, and that round is of request r. */
  ghost predicate IsSerialAnswer(s: Serving, r: Message, reply: Message, i: nat, p: Provider) {
    var answers := Lifecycle.Serial(s.machine.rounds, p.features, p.encode).answers;
    && i < |s.machine.rounds| && i < |answers| && s.machine.rounds[i].request == p.Decode(r)
    && Carries(reply, s.sys.plugin.instance, r.id, answers[i])
  }

  lemma ResultExplained(s: Serving, h: nat, r: Message, reply: Message, p: Provider) returns (i: nat)
    requires Owned(s, p) && h < |s.sys.plugin.handlers.jobs|
    requires s.sys.plugin.handlers.jobs[h].request == r && s.sys.plugin.handlers.jobs[h].response == Some(reply)
    ensures || (i < |s.order| && s.order[i] == h && IsSerialAnswer(s, r, reply, i, p))
            || (h in s.machine.busy && Carries(reply, s.sys.plugin.instance, r.id, BUSY))
  {
    hide Lifecycle.Serial, Carries;
    LifecycleAnswers.AnswersCounted(s.machine.rounds, p.features, p.encode);
    i := 0;
    if h in s.order {
      i :| i < |s.order| && s.order[i] == h;
    }
    assert s.machine.answers == Lifecycle.Serial(s.machine.rounds, p.features, p.encode).answers;
  }

  /** Whatever the host does, with any number of calls in flight: a reply that a call took is the serial execution's
      answer to that call's own round, or "lifecycle busy" because its handler lost the gate. */
  lemma RepliesExplained(s: Serving, k: nat, p: Provider) returns (i: nat, h: nat)
    requires Served(s, p) && Unwrapped(s.sys)
    requires k < |s.sys.host.calls.tickets| && s.sys.host.calls.tickets[k].taken.Some?
    ensures var t, jobs := s.sys.host.calls.tickets[k], s.sys.plugin.handlers.jobs;
            && h < |jobs| && jobs[h].request == t.request
            && (|| (i < |s.order| && s.order[i] == h && IsSerialAnswer(s, t.request, t.taken.value, i, p))
                || (h in s.machine.busy
                    && Carries(t.taken.value, s.sys.plugin.instance, t.request.id, Failed("special: lifecycle busy"))))
  {
    hide CanAct, Acted, Carries, Owned, IsSerialAnswer, SysInv, Unwrapped;
    var r :| IsServed(r, p) && r.states[|r.acts|] == s;
    SessionOwned(r, |r.acts|, p);
    SessionSys(r, |r.acts|, p);
    h := AnsweredBy(s.sys, s.sys.host, s.sys.plugin, k);
    var t := s.sys.host.calls.tickets[k];
    i := ResultExplained(s, h, t.request, t.taken.value, p);
  }

  /** And the provider calls seen behind the joined peers, whatever the host does, are an allowed trace. */
  lemma ServedTraceAllowed(s: Serving, p: Provider)
    requires Served(s, p) && Lifecycle.Faithful(p.encode)
    ensures Lifecycle.Allowed(G.Visible(s.machine))
  {
    hide CanAct, Acted, Lifecycle.Faithful, Lifecycle.Allowed, G.InStep;
    var r :| IsServed(r, p) && r.states[|r.acts|] == s;
    SessionOwned(r, |r.acts|, p);
    G.VisibleAllowed(s.machine, p.features, p.encode);
  }

  lemma ReachedIsServed(s: Serving, after: set<Exit>, p: Provider)
    requires Reached(s, after, p)
    ensures Served(s, p)
  {
    hide IsServed;
  }

  /** And for a host that goes on only after settled calls it is always that answer. */
  lemma RepliesAreSerial(s: Serving, k: nat, p: Provider) returns (i: nat)
    requires Reached(s, SETTLED, p) && Unwrapped(s.sys)
    requires k < |s.sys.host.calls.tickets| && s.sys.host.calls.tickets[k].taken.Some?
    ensures var t, jobs := s.sys.host.calls.tickets[k], s.sys.plugin.handlers.jobs;
            && i < |s.order| && s.order[i] < |jobs| && jobs[s.order[i]].request == t.request
            && IsSerialAnswer(s, t.request, t.taken.value, i, p)
  {
    hide Reached, Served, Unwrapped, IsSerialAnswer;
    var h: nat;
    ReachedIsServed(s, SETTLED, p);
    i, h := RepliesExplained(s, k, p);
    NeverBusy(s, p);
  }

  /** So a host learns from a reply what the provider did: the reply carries an answer which, with what its round adds
      to the provider calls before it, is exactly what that call's method and payload and the end of its own provider
      call say. */
  lemma RepliesTellProvider(s: Serving, k: nat, p: Provider) returns (i: nat, answer: Outcome)
    requires Reached(s, SETTLED, p) && Unwrapped(s.sys) && Lifecycle.Faithful(p.encode)
    requires k < |s.sys.host.calls.tickets| && s.sys.host.calls.tickets[k].taken.Some?
    ensures var t, rounds := s.sys.host.calls.tickets[k], s.machine.rounds;
            && i < |rounds| && Carries(t.taken.value, s.sys.plugin.instance, t.request.id, answer)
            && LifecycleAnswers.CallTold(Lifecycle.Serial(rounds[..i], p.features, p.encode).trace,
                                         t.request.verb, t.request.payload, rounds[i].ended, p.features, p.decoders,
                                         Lifecycle.Serial(rounds[..i + 1], p.features, p.encode).trace, answer)
  {
    hide Reached, Unwrapped, Carries, Lifecycle.Faithful, Lifecycle.Serial, LifecycleAnswers.RoundTold;
    hide LifecycleAnswers.CallTold, Lifecycle.Understood;
    i := RepliesAreSerial(s, k, p);
    var rounds, m := s.machine.rounds, s.sys.host.calls.tickets[k].request;
    LifecycleAnswers.AnswersTold(rounds, i, p.features, p.encode);
    answer := Lifecycle.Serial(rounds, p.features, p.encode).answers[i];
    LifecycleAnswers.UnderstoodTold(Lifecycle.Serial(rounds[..i], p.features, p.encode).trace,
                                    m.verb, m.payload, rounds[i].ended, p.features, p.decoders,
                                    Lifecycle.Serial(rounds[..i + 1], p.features, p.encode).trace, answer);
  }
}
