/**
 Concurrent invocations of the lifecycle handler. The gate is taken with a try-lock: an invocation either
 wins it and runs alone up to its deferred unlock, or answers "lifecycle busy" and touches nothing.
 */
module LifecycleGate {
  import opened Envelope
  import opened Lifecycle
  import opened LifecycleAnswers

  /** Where the holder of the gate is: before its first step, in the provider, or about to unlock. */
  datatype Position = Entered | Inside(call: Call) | Leaving(outcome: Outcome, ended: Ended)
  datatype Gate = Free | Held(who: nat, request: Request, at: Position)

  /** `rounds` and `answers` record the winners in lock order; `busy` the losers. */
  datatype Machine = Machine(
    state: State, gate: Gate, trace: seq<Letter>, rounds: seq<Round>, answers: seq<Outcome>, busy: set<nat>)

  const IDLE := Machine(INITIAL, Free, [], [], [], {})

  datatype Event = Try(who: nat, request: Request) | Proceed | Back(ended: Ended) | Leave

  predicate Enabled(m: Machine, e: Event) {
    match e
    case Try(_, _) => true
    case Proceed => m.gate.Held? && m.gate.at.Entered?
    case Back(_) => m.gate.Held? && m.gate.at.Inside?
    case Leave => m.gate.Held? && m.gate.at.Leaving?
  }

  function Next(m: Machine, e: Event, features: Features, encode: Encoder): Machine
    requires Enabled(m, e)
  {
    match e
    case Try(who, request) =>
      if m.gate.Free? then m.(gate := Held(who, request, Entered)) else m.(busy := m.busy + {who})
    case Proceed =>
      var (state, plan) := Begin(m.state, m.gate.request, features, encode);
      m.(state := state,
         gate := m.gate.(at := if plan.Invoke? then Inside(plan.call) else Leaving(plan.outcome, Ok(""))))
    case Back(ended) =>
      var call := m.gate.at.call;
      m.(state := End(m.state, call, ended), trace := m.trace + LetterOf(call, ResultOf(ended)),
         gate := m.gate.(at := Leaving(AnswerOf(call, ended), ended)))
    case Leave =>
      m.(gate := Free, rounds := m.rounds + [Round(m.gate.request, m.gate.at.ended)],
         answers := m.answers + [m.gate.at.outcome])
  }

  /** The machine is where the serial execution of the winners would be. */
  ghost predicate InStep(m: Machine, features: Features, encode: Encoder) {
    var s := Serial(m.rounds, features, encode);
    && m.answers == s.answers
    && match m.gate
       case Free => m.state == s.state && m.trace == s.trace
       case Held(_, _, Entered) => m.state == s.state && m.trace == s.trace
       case Held(_, request, Inside(call)) =>
         Begin(s.state, request, features, encode) == (m.state, Invoke(call)) && m.trace == s.trace
       case Held(_, request, Leaving(outcome, ended)) =>
         Served(m.state, m.trace, m.answers + [outcome]) == Serve(s, Round(request, ended), features, encode)
  }

  lemma InStepNext(m: Machine, e: Event, features: Features, encode: Encoder)
    requires InStep(m, features, encode) && Enabled(m, e)
    ensures InStep(Next(m, e, features, encode), features, encode)
  {
    hide Begin, End;
    match e
    case Try(_, _) =>
    case Proceed =>
      var (state, plan) := Begin(m.state, m.gate.request, features, encode);
      assert Begin(m.state, m.gate.request, features, encode) == (state, plan);
    case Back(ended) =>
    case Leave =>
      var rounds := m.rounds + [Round(m.gate.request, m.gate.at.ended)];
      assert rounds[..|rounds| - 1] == m.rounds;
  }

  datatype History = History(states: seq<Machine>, events: seq<Event>)

  ghost predicate IsHistory(r: History, features: Features, encode: Encoder) {
    && |r.states| == |r.events| + 1 && r.states[0] == IDLE
    && forall i :: 0 <= i < |r.events| ==>
         Enabled(r.states[i], r.events[i]) && r.states[i + 1] == Next(r.states[i], r.events[i], features, encode)
  }

  lemma {:induction false} HistoryInStep(r: History, i: nat, features: Features, encode: Encoder)
    requires IsHistory(r, features, encode) && i <= |r.events|
    ensures InStep(r.states[i], features, encode)
  {
    if i > 0 {
      HistoryInStep(r, i - 1, features, encode);
      InStepNext(r.states[i - 1], r.events[i - 1], features, encode);
    }
  }

  /** Whatever the interleaving: when the gate is free, state, provider trace and the winners' answers are
      those of running the winners one after the other in lock order. */
  lemma Linearizable(r: History, i: nat, features: Features, encode: Encoder)
    requires IsHistory(r, features, encode) && i <= |r.events| && r.states[i].gate.Free?
    ensures Served(r.states[i].state, r.states[i].trace, r.states[i].answers) ==
            Serial(r.states[i].rounds, features, encode)
  {
    HistoryInStep(r, i, features, encode);
  }

  /** So each winner is answered, and adds to the trace, as the calls before its own and the end of its own provider
      call say, whatever the interleaving. */
  lemma WinnersAnswered(r: History, i: nat, k: nat, features: Features, encode: Encoder)
    requires Faithful(encode) && IsHistory(r, features, encode) && i <= |r.events| && k < |r.states[i].rounds|
    ensures var m := r.states[i];
            var before, after := Serial(m.rounds[..k], features, encode), Serial(m.rounds[..k + 1], features, encode);
            && |m.answers| == |m.rounds|
            && RoundTold(before.trace, m.rounds[k], features, after.trace, m.answers[k])
  {
    hide Begin, End, RoundTold, Serial, Faithful;
    HistoryInStep(r, i, features, encode);
    AnswersTold(r.states[i].rounds, k, features, encode);
  }

  /** And while a provider call of the lifecycle is in progress, the provider was handed the holder's own request. */
  lemma ProviderGetsOwn(r: History, i: nat, features: Features, encode: Encoder)
    requires IsHistory(r, features, encode) && i <= |r.events|
    requires r.states[i].gate.Held? && r.states[i].gate.at.Inside? && !r.states[i].gate.at.call.OtherCall?
    ensures var q, call := r.states[i].gate.request, r.states[i].gate.at.call;
            && q.Phased? && q.run.Good? && call.run == q.run.value
            && (call.PrepareCall? <==> q.phase == Prepare) && (call.RunCall? <==> q.phase == Run)
  {
    hide Begin, End, Serial;
    HistoryInStep(r, i, features, encode);
    var m := r.states[i];
    ProviderGetsRequest(Serial(m.rounds, features, encode).state, m.gate.request, features, encode);
  }

  /** A try that finds the gate taken. */
  predicate Loses(m: Machine, e: Event) { e.Try? && m.gate.Held? }

  /** The first n events of a history without the losing tries. */
  function Winning(r: History, n: nat): seq<Event>
    requires n <= |r.events| && n <= |r.states|
  {
    if n == 0 then []
    else if Loses(r.states[n - 1], r.events[n - 1]) then Winning(r, n - 1)
    else Winning(r, n - 1) + [r.events[n - 1]]
  }

  lemma BusyIgnored(m: Machine, e: Event, features: Features, encode: Encoder)
    requires Enabled(m, e)
    ensures Enabled(m.(busy := {}), e)
    ensures var n := Next(m, e, features, encode).(busy := {});
            n == if Loses(m, e) then m.(busy := {}) else Next(m.(busy := {}), e, features, encode)
  {
    hide Begin, End;
  }

  /** Losers change nothing: a history from which every losing try is erased is a history too, and ends in the
      same machine but for the record of who lost. */
  lemma {:induction false} LosersChangeNothing(r: History, n: nat, features: Features, encode: Encoder)
    returns (q: History)
    requires IsHistory(r, features, encode) && n <= |r.events|
    ensures IsHistory(q, features, encode) && q.events == Winning(r, n)
    ensures q.states[|q.events|] == r.states[n].(busy := {})
  {
    hide Next, Enabled;
    if n == 0 {
      q := History([IDLE], []);
    } else {
      var m, e := r.states[n - 1], r.events[n - 1];
      q := LosersChangeNothing(r, n - 1, features, encode);
      BusyIgnored(m, e, features, encode);
      if !Loses(m, e) {
        q := Extended(q, e, features, encode);
      }
    }
  }

  lemma Extended(r: History, e: Event, features: Features, encode: Encoder) returns (q: History)
    requires IsHistory(r, features, encode) && Enabled(r.states[|r.events|], e)
    ensures IsHistory(q, features, encode) && q.events == r.events + [e]
    ensures q.states[|q.events|] == Next(r.states[|r.events|], e, features, encode)
  {
    hide Next, Enabled;
    q := History(r.states + [Next(r.states[|r.events|], e, features, encode)], r.events + [e]);
    forall i | 0 <= i < |q.events|
      ensures Enabled(q.states[i], q.events[i]) && q.states[i + 1] == Next(q.states[i], q.events[i], features, encode)
    {
      assert i < |r.events| ==> r.states[i + 1] == Next(r.states[i], r.events[i], features, encode);
    }
  }

  /** The trace as an observer of the provider sees it: a call in progress has not returned. */
  function Visible(m: Machine): seq<Letter> {
    if m.gate.Held? && m.gate.at.Inside? then m.trace + LetterOf(m.gate.at.call, NoReturn) else m.trace
  }

  lemma VisibleAllowed(m: Machine, features: Features, encode: Encoder)
    requires Faithful(encode) && InStep(m, features, encode)
    ensures Allowed(Visible(m))
  {
    hide Begin, End, Allowed, StateAfter;
    SerialTrace(m.rounds, features, encode);
    if m.gate.Held? {
      var s := Serial(m.rounds, features, encode);
      match m.gate.at
      case Entered =>
      case Inside(call) => ServeStep(s.trace, s.answers, Round(m.gate.request, Panic("")), features, encode);
      case Leaving(_, ended) => ServeStep(s.trace, s.answers, Round(m.gate.request, ended), features, encode);
    }
  }

  ghost predicate Reachable(m: Machine, features: Features, encode: Encoder) {
    exists r :: IsHistory(r, features, encode) && r.states[|r.events|] == m
  }

  lemma ReachNext(m: Machine, e: Event, features: Features, encode: Encoder)
    requires Reachable(m, features, encode) && Enabled(m, e)
    ensures Reachable(Next(m, e, features, encode), features, encode)
  {
    hide Next, Enabled;
    var r :| IsHistory(r, features, encode) && r.states[|r.events|] == m;
    var q := Extended(r, e, features, encode);
  }

  /** Serving the rounds one at a time is one of the interleavings. */
  lemma {:induction false} SerialReached(rounds: seq<Round>, features: Features, encode: Encoder) returns (m: Machine)
    ensures Reachable(m, features, encode) && m.gate.Free?
    ensures Served(m.state, m.trace, m.answers) == Serial(rounds, features, encode)
  {
    hide Reachable, Begin, End;
    if rounds == [] {
      m := IDLE;
      IdleReached(features, encode);
    } else {
      var r := rounds[|rounds| - 1];
      m := SerialReached(rounds[..|rounds| - 1], features, encode);
      var (state, plan) := Begin(m.state, r.request, features, encode);
      ReachNext(m, Try(0, r.request), features, encode);
      m := Next(m, Try(0, r.request), features, encode);
      ReachNext(m, Proceed, features, encode);
      m := Next(m, Proceed, features, encode);
      if m.gate.at.Inside? {
        ReachNext(m, Back(r.ended), features, encode);
        m := Next(m, Back(r.ended), features, encode);
      }
      ReachNext(m, Leave, features, encode);
      m := Next(m, Leave, features, encode);
    }
  }

  lemma IdleReached(features: Features, encode: Encoder)
    ensures Reachable(IDLE, features, encode)
  {
    var r := History([IDLE], []);
    assert IsHistory(r, features, encode) && r.states[|r.events|] == IDLE;
  }

  /** The provider-call traces visible under any interleaving, errors and panics included, are exactly the
      allowed ones. */
  lemma VisibleTraces(t: seq<Letter>, features: Features, encode: Encoder)
    requires Faithful(encode)
    ensures (exists m :: Reachable(m, features, encode) && Visible(m) == t) <==> Allowed(t)
  {
    hide Allowed, Begin, End;
    if Allowed(t) {
      var rounds := TraceReached(t, features, encode);
      var m := SerialReached(rounds, features, encode);
      assert Visible(m) == t;
    }
    if exists m :: Reachable(m, features, encode) && Visible(m) == t {
      var m :| Reachable(m, features, encode) && Visible(m) == t;
      var r :| IsHistory(r, features, encode) && r.states[|r.events|] == m;
      HistoryInStep(r, |r.events|, features, encode);
      VisibleAllowed(m, features, encode);
    }
  }
}
