/**
 The lifecycle handler of a served provider: the try-lock gate, the state it guards, and the provider
 behind it, which may return, fail or panic. First the handler as a serial function, then its
 interleaving with concurrent invocations, then the exact set of provider-call traces.
 */
module Lifecycle {
  import opened Envelope

  /** What `encodedRun` is the encoding of: the run with epoch and unit blanked. `compiled` stands for the
      rest of the compiled input. */
  datatype Identity = Identity(runID: string, units: int, compiled: string)
  datatype RunRequest = RunRequest(epoch: string, unit: int, identity: Identity)

  datatype Phase = Prepare | Run | Cleanup

  /** A request after decoding; a payload that does not decode carries the decoder's error text. */
  datatype Decoded<T> = Good(value: T) | Bad(error: string)
  datatype Request =
    | Health | Snapshot | Describe
    | Stateless(payload: Decoded<string>)               // template, compile, report.prepare, report.render
    | Phased(phase: Phase, run: Decoded<RunRequest>)
    | Unknown(verb: string)

  /** The decoders of payloads: of a run request, and of what the other methods take. */
  datatype Decoders = Decoders(run: string -> Decoded<RunRequest>, other: (string, string) -> Decoded<string>)

  /** The switch over methods. */
  function Understood(verb: string, raw: string, d: Decoders): Request {
    if verb == "health" then Health
    else if verb == "snapshot" then Snapshot
    else if verb == "describe" then Describe
    else if verb == "template" || verb == "compile" then Stateless(d.other(verb, raw))
    else if verb == "prepare" then Phased(Prepare, d.run(raw))
    else if verb == "run" then Phased(Run, d.run(raw))
    else if verb == "cleanup" then Phased(Cleanup, d.run(raw))
    else if verb == "report.prepare" || verb == "report.render" then Stateless(d.other(verb, raw))
    else Unknown(verb)
  }

  /** The provider's optional interfaces. */
  datatype Features = Features(health: bool, snapshot: bool)

  datatype Step = New | Preparing | PrepareFailed | Prepared | Running | Finished | Cleaning | Cleaned

  datatype State = State(step: Step, lastUnit: int, frozen: string)
  const INITIAL := State(New, 0, "")

  /** How a provider method ended. */
  datatype Ended = Ok(value: string) | Err(text: string) | Panic(detail: string)

  datatype Call = PrepareCall(run: RunRequest) | RunCall(run: RunRequest, unit: int) | CleanupCall(run: RunRequest)
    | OtherCall

  /** What the handler does before it hands over to the provider: answer at once, or call it. */
  datatype Plan = Answer(outcome: Outcome) | Invoke(call: Call)

  type Encoder = Identity -> string

  /** The encoding is never empty and can be decoded. */
  ghost predicate Faithful(encode: Encoder) {
    && (forall i :: encode(i) != "")
    && (forall i, j :: encode(i) == encode(j) ==> i == j)
  }

  function Max(a: int, b: int): int { if a >= b then a else b }

  /** The unit a run request asks for: 1 when neither it nor the compiled input says. */
  function UnitOf(r: RunRequest): int { if r.unit == 0 && r.identity.units == 0 then 1 else r.unit }

  function Fail(s: State, text: string): (State, Plan) { (s, Answer(Failed(text))) }

  function BeginPhase(s: State, phase: Phase, r: RunRequest, encode: Encoder): (State, Plan) {
    var encoded := encode(r.identity);
    if r.identity.runID == "" then Fail(s, "special: run ID required")
    else if phase != Prepare && |s.frozen| > 0 && s.frozen != encoded then
      Fail(s, "special: run identity or compiled input changed")
    else match phase
      case Prepare =>
        if s.step != New then Fail(s, "special: already prepared")
        else (s.(frozen := encoded, step := Preparing), Invoke(PrepareCall(r)))
      case Run =>
        var unit := UnitOf(r);
        if s.step != Prepared && s.step != Finished then Fail(s, "special: run requires prepare")
        else if unit != s.lastUnit + 1 || unit > Max(r.identity.units, 1) then
          Fail(s, "special: unit identity already used or out of order")
        else (s.(lastUnit := unit, step := Running), Invoke(RunCall(r, unit)))
      case Cleanup =>
        if s.step == Cleaned then (s, Answer(Value("null")))
        else (s.(step := Cleaning), Invoke(CleanupCall(r)))
  }

  /** The handler from taking the gate to the provider call, or to its answer. */
  function Begin(s: State, request: Request, features: Features, encode: Encoder): (State, Plan) {
    match request
    case Health => (s, if features.health then Invoke(OtherCall) else Answer(Value("ready")))
    case Snapshot =>
      if s.step != Finished && s.step != Cleaned then Fail(s, "special: snapshot unavailable")
      else if features.snapshot then (s, Invoke(OtherCall))
      else Fail(s, "special: snapshot unsupported")
    case Describe => (s, Invoke(OtherCall))
    case Stateless(Bad(error)) => Fail(s, error)
    case Stateless(Good(_)) => (s, Invoke(OtherCall))
    case Phased(_, Bad(error)) => Fail(s, error)
    case Phased(phase, Good(r)) => BeginPhase(s, phase, r, encode)
    case Unknown(verb) => Fail(s, "special: unknown method " + verb)
  }

  function OutcomeOf(ended: Ended, nothing: bool): Outcome {
    match ended
    case Ok(value) => Value(if nothing then "null" else value)
    case Err(text) => Failed(text)
    case Panic(detail) => Panicked(detail)
  }

  /** The handler after the provider call. A panic skips the assignment that follows the call. */
  function End(s: State, call: Call, ended: Ended): State {
    match call
    case PrepareCall(_) => if ended.Panic? then s else s.(step := if ended.Ok? then Prepared else PrepareFailed)
    case RunCall(_, _) => if ended.Panic? then s else s.(step := Finished)
    case CleanupCall(_) => if ended.Ok? then s.(step := Cleaned) else s
    case OtherCall => s
  }

  function AnswerOf(call: Call, ended: Ended): Outcome { OutcomeOf(ended, call.PrepareCall? || call.CleanupCall?) }

  // ---------- serial execution ----------

  /** The lifecycle calls that reached the provider. */
  datatype Result = Returned(ok: bool) | NoReturn     // NoReturn: panicked, or has not returned yet
  datatype Letter =
    | PrepareOf(identity: Identity, result: Result)
    | RunOf(identity: Identity, unit: int, result: Result)
    | CleanupOf(identity: Identity, result: Result)

  function ResultOf(ended: Ended): Result { if ended.Panic? then NoReturn else Returned(ended.Ok?) }

  function LetterOf(call: Call, result: Result): seq<Letter> {
    match call
    case PrepareCall(r) => [PrepareOf(r.identity, result)]
    case RunCall(r, unit) => [RunOf(r.identity, unit, result)]
    case CleanupCall(r) => [CleanupOf(r.identity, result)]
    case OtherCall => []
  }

  /** One whole invocation: its request, and how the provider ended if it was called. */
  datatype Round = Round(request: Request, ended: Ended)

  datatype Served = Served(state: State, trace: seq<Letter>, answers: seq<Outcome>)

  function Serve(s: Served, r: Round, features: Features, encode: Encoder): Served {
    var (state, plan) := Begin(s.state, r.request, features, encode);
    match plan
    case Answer(outcome) => Served(state, s.trace, s.answers + [outcome])
    case Invoke(call) =>
      Served(End(state, call, r.ended), s.trace + LetterOf(call, ResultOf(r.ended)),
             s.answers + [AnswerOf(call, r.ended)])
  }

  function Serial(rounds: seq<Round>, features: Features, encode: Encoder): Served {
    if rounds == [] then Served(INITIAL, [], [])
    else Serve(Serial(rounds[..|rounds| - 1], features, encode), rounds[|rounds| - 1], features, encode)
  }

  // ---------- the language of provider-call traces ----------

  ghost function Runs(t: seq<Letter>): nat {
    if t == [] then 0 else Runs(t[..|t| - 1]) + if t[|t| - 1].RunOf? then 1 else 0
  }

  ghost predicate Identified(t: seq<Letter>) { forall j :: 0 <= j < |t| ==> t[j].identity.runID != "" }

  ghost predicate PreparedOnce(t: seq<Letter>) {
    forall i, j :: 0 <= i < j < |t| ==> !(t[i].PrepareOf? && t[j].PrepareOf?)
  }

  ghost predicate RunsPrepared(t: seq<Letter>) {
    forall j :: 0 <= j < |t| && t[j].RunOf? ==> PrepareOf(t[j].identity, Returned(true)) in t[..j]
  }

  ghost predicate UnitsInOrder(t: seq<Letter>) {
    forall j :: 0 <= j < |t| && t[j].RunOf? ==> t[j].unit == Runs(t[..j]) + 1 <= Max(t[j].identity.units, 1)
  }

  ghost predicate PanicEndsRuns(t: seq<Letter>) {
    forall i, j :: 0 <= i < j < |t| ==> !(t[i].RunOf? && t[i].result.NoReturn? && t[j].RunOf?)
  }

  ghost predicate CleanupIsLast(t: seq<Letter>) {
    forall i, j :: 0 <= i < j < |t| && t[i].CleanupOf? ==> t[j].CleanupOf? && t[i].result != Returned(true)
  }

  ghost predicate SameIdentity(t: seq<Letter>) {
    forall i, j :: 0 <= i < j < |t| && t[i].PrepareOf? ==> t[j].identity == t[i].identity
  }

  /** Which traces may occur: at most one Prepare; a Run only after a Prepare that returned ok, with its
      identity, and with units 1, 2, ... up to the frozen number; nothing but Cleanup after a Cleanup has
      begun, nothing at all after one that returned ok; no Run after a Run that panicked. */
  ghost predicate Allowed(t: seq<Letter>) {
    && Identified(t) && PreparedOnce(t) && RunsPrepared(t) && UnitsInOrder(t)
    && PanicEndsRuns(t) && CleanupIsLast(t) && SameIdentity(t)
  }

  /** The state that a trace leaves behind. */
  function StepAfter(t: seq<Letter>): Step {
    if t == [] then New
    else match t[|t| - 1]
      case PrepareOf(_, Returned(ok)) => if ok then Prepared else PrepareFailed
      case PrepareOf(_, NoReturn) => Preparing
      case RunOf(_, _, Returned(_)) => Finished
      case RunOf(_, _, NoReturn) => Running
      case CleanupOf(_, result) => if result == Returned(true) then Cleaned else Cleaning
  }

  ghost function StateAfter(t: seq<Letter>, encode: Encoder): State {
    State(StepAfter(t), Runs(t), if t != [] && t[0].PrepareOf? then encode(t[0].identity) else "")
  }

  lemma PrepareIsFirst(t: seq<Letter>)
    requires Allowed(t)
    ensures forall j :: 0 <= j < |t| && t[j].PrepareOf? ==> j == 0
    ensures forall j :: 0 <= j < |t| && t[j].RunOf? ==> t[0] == PrepareOf(t[j].identity, Returned(true))
  {
    hide Identified, UnitsInOrder, PanicEndsRuns, SameIdentity;
    if t != [] {
      assert t[..0] == [];
      forall j | 0 <= j < |t| && t[j].RunOf?
        ensures t[0] == PrepareOf(t[j].identity, Returned(true))
      {
        var i :| 0 <= i < j && t[i] == PrepareOf(t[j].identity, Returned(true));
      }
    }
  }

  lemma Prefixes(t: seq<Letter>, l: Letter)
    ensures forall j :: 0 <= j <= |t| ==> (t + [l])[..j] == t[..j]
    ensures Runs(t + [l]) == Runs(t) + if l.RunOf? then 1 else 0
  {
    forall j | 0 <= j <= |t| ensures (t + [l])[..j] == t[..j] {}
    assert (t + [l])[..|t|] == t;
  }

  /** Which letters may follow an allowed trace, in terms of the state it leaves. */
  ghost predicate MayFollow(t: seq<Letter>, l: Letter) {
    var step := StepAfter(t);
    && l.identity.runID != ""
    && (t != [] && t[0].PrepareOf? ==> l.identity == t[0].identity)
    && match l
       case PrepareOf(_, _) => step == New
       case RunOf(_, unit, _) =>
         (step == Prepared || step == Finished) && unit == Runs(t) + 1 <= Max(l.identity.units, 1)
       case CleanupOf(_, _) => step != Cleaned
  }

  lemma AllowedSnoc(t: seq<Letter>, l: Letter)
    requires Allowed(t)
    ensures Allowed(t + [l]) <==> MayFollow(t, l)
  {
    Prefixes(t, l);
    PrepareIsFirst(t);
    if MayFollow(t, l) {
      FollowerAllowed(t, l);
    }
    if Allowed(t + [l]) {
      PrepareIsFirst(t + [l]);
    }
  }

  lemma UnitsSnoc(t: seq<Letter>, l: Letter)
    requires UnitsInOrder(t) && (l.RunOf? ==> l.unit == Runs(t) + 1 <= Max(l.identity.units, 1))
    ensures UnitsInOrder(t + [l])
  {
    forall j | 0 <= j <= |t| ensures (t + [l])[..j] == t[..j] {}
    assert (t + [l])[..|t|] == t;
  }

  lemma RunsSnoc(t: seq<Letter>, l: Letter)
    requires RunsPrepared(t) && (l.RunOf? ==> PrepareOf(l.identity, Returned(true)) in t)
    ensures RunsPrepared(t + [l])
  {
    forall j | 0 <= j <= |t| ensures (t + [l])[..j] == t[..j] {}
    assert (t + [l])[..|t|] == t;
  }

  lemma PhasesSnoc(t: seq<Letter>, l: Letter)
    requires Allowed(t) && MayFollow(t, l)
    ensures Identified(t + [l]) && PreparedOnce(t + [l]) && SameIdentity(t + [l])
  {
    PrepareIsFirst(t);
    hide UnitsInOrder, RunsPrepared, Runs, PanicEndsRuns, CleanupIsLast;
    var u := t + [l];
    assert forall j :: 0 <= j < |t| ==> u[j] == t[j];
  }

  lemma PanicSnoc(t: seq<Letter>, l: Letter)
    requires Allowed(t) && MayFollow(t, l)
    ensures PanicEndsRuns(t + [l])
  {
    PrepareIsFirst(t);
    hide Runs, Identified, PreparedOnce, RunsPrepared, SameIdentity, UnitsInOrder;
    var u := t + [l];
    assert forall j :: 0 <= j < |t| ==> u[j] == t[j];
  }

  lemma CleanupSnoc(t: seq<Letter>, l: Letter)
    requires Allowed(t) && MayFollow(t, l)
    ensures CleanupIsLast(t + [l])
  {
    PrepareIsFirst(t);
    hide Runs, Identified, PreparedOnce, RunsPrepared, SameIdentity, UnitsInOrder, PanicEndsRuns;
    var u := t + [l];
    assert forall j :: 0 <= j < |t| ==> u[j] == t[j];
  }

  lemma FollowerAllowed(t: seq<Letter>, l: Letter)
    requires Allowed(t) && MayFollow(t, l)
    ensures Allowed(t + [l])
  {
    hide Identified, PreparedOnce, PanicEndsRuns, CleanupIsLast, SameIdentity, UnitsInOrder, RunsPrepared;
    PrepareIsFirst(t);
    PhasesSnoc(t, l);
    PanicSnoc(t, l);
    CleanupSnoc(t, l);
    UnitsSnoc(t, l);
    RunsSnoc(t, l);
  }

  lemma AllowedPrefix(t: seq<Letter>)
    requires Allowed(t) && t != []
    ensures Allowed(t[..|t| - 1])
  {
    var u := t[..|t| - 1];
    forall j | 0 <= j < |u| ensures u[..j] == t[..j] {}
    assert RunsPrepared(u) by {
      hide Identified, PreparedOnce, UnitsInOrder, PanicEndsRuns, CleanupIsLast, SameIdentity;
    }
    assert UnitsInOrder(u) by {
      hide Identified, PreparedOnce, RunsPrepared, PanicEndsRuns, CleanupIsLast, SameIdentity;
    }
    hide RunsPrepared, UnitsInOrder;
  }

  /** The state after the trace grew by one letter: its step is that letter's, a Run advances the unit,
      and the frozen run is set by a first Prepare only. */
  lemma StateSnoc(t: seq<Letter>, l: Letter, encode: Encoder)
    requires MayFollow(t, l)
    ensures StateAfter(t + [l], encode) ==
            State(StepAfter([l]), Runs(t) + (if l.RunOf? then 1 else 0),
                  if l.PrepareOf? then encode(l.identity) else StateAfter(t, encode).frozen)
  {
    Prefixes(t, l);
    assert (t + [l])[|t|] == l;
  }

  lemma FrozenSame(t: seq<Letter>, i: Identity, encode: Encoder)
    requires Faithful(encode)
    ensures var frozen := StateAfter(t, encode).frozen;
            (|frozen| > 0 && frozen != encode(i)) <==> (t != [] && t[0].PrepareOf? && t[0].identity != i)
  {
  }

  /** A phase that reaches the provider calls a letter that may follow, and leaves the state of its trace. */
  lemma PhaseStep(t: seq<Letter>, phase: Phase, r: RunRequest, ended: Ended, encode: Encoder)
    requires Faithful(encode) && Allowed(t)
    ensures var s := StateAfter(t, encode);
            var (mid, plan) := BeginPhase(s, phase, r, encode);
            && (plan.Answer? ==> mid == s)
            && (plan.Invoke? ==>
                  && !plan.call.OtherCall?
                  && MayFollow(t, LetterOf(plan.call, ResultOf(ended))[0])
                  && End(mid, plan.call, ended) == StateAfter(t + LetterOf(plan.call, ResultOf(ended)), encode))
  {
    FrozenSame(t, r.identity, encode);
    PrepareOnlyNew(t);
    var s := StateAfter(t, encode);
    PhasePlan(s, phase, r, ended, encode);
    var (mid, plan) := BeginPhase(s, phase, r, encode);
    hide Allowed, Faithful, BeginPhase, End;
    if plan.Invoke? {
      var l := LetterOf(plan.call, ResultOf(ended))[0];
      assert MayFollow(t, l);
      hide LetterOf;
      StateSnoc(t, l, encode);
    }
  }

  /** What a phase checks before it reaches the provider, and what it has done when the call is over. */
  lemma PhasePlan(s: State, phase: Phase, r: RunRequest, ended: Ended, encode: Encoder)
    ensures var (mid, plan) := BeginPhase(s, phase, r, encode);
            && (plan.Answer? ==> mid == s)
            && (plan.Invoke? ==>
                  && |LetterOf(plan.call, ResultOf(ended))| == 1
                  && var l := LetterOf(plan.call, ResultOf(ended))[0];
                     && LetterOf(plan.call, ResultOf(ended)) == [l]
                     && l.identity == r.identity && r.identity.runID != ""
                     && (l.PrepareOf? ==> s.step == New)
                     && (l.RunOf? ==> s.step == Prepared || s.step == Finished)
                     && (l.RunOf? ==> l.unit == s.lastUnit + 1 <= Max(l.identity.units, 1))
                     && (l.CleanupOf? ==> s.step != Cleaned)
                     && (!l.PrepareOf? ==> |s.frozen| == 0 || s.frozen == encode(l.identity))
                     && End(mid, plan.call, ended) ==
                        State(StepAfter([l]), s.lastUnit + (if l.RunOf? then 1 else 0),
                              if l.PrepareOf? then encode(l.identity) else s.frozen))
  {
  }

  lemma PrepareOnlyNew(t: seq<Letter>)
    ensures StepAfter(t) == New <==> t == []
  {
  }

  /** One invocation of the handler extends the trace by a letter that may follow it, or not at all. */
  lemma ServeStep(t: seq<Letter>, answers: seq<Outcome>, r: Round, features: Features, encode: Encoder)
    requires Faithful(encode) && Allowed(t)
    ensures var s := Serve(Served(StateAfter(t, encode), t, answers), r, features, encode);
            Allowed(s.trace) && s.state == StateAfter(s.trace, encode)
  {
    hide Allowed, StateAfter, BeginPhase, MayFollow, End;
    assert t + [] == t;
    if r.request.Phased? && r.request.run.Good? {
      PhaseStep(t, r.request.phase, r.request.run.value, r.ended, encode);
      var (mid, plan) := BeginPhase(StateAfter(t, encode), r.request.phase, r.request.run.value, encode);
      if plan.Invoke? {
        FollowerAllowed(t, LetterOf(plan.call, ResultOf(r.ended))[0]);
      }
    } else {
      OtherLeavesState(StateAfter(t, encode), r, features, encode);
    }
  }

  /** Only the three phases touch the state. */
  lemma OtherLeavesState(s: State, r: Round, features: Features, encode: Encoder)
    requires !(r.request.Phased? && r.request.run.Good?)
    ensures var (mid, plan) := Begin(s, r.request, features, encode);
            mid == s && (plan.Invoke? ==> plan.call.OtherCall? && End(mid, plan.call, r.ended) == s)
  {
  }

  /** The invocation that asks the provider for letter l. */
  function RoundFor(l: Letter): Round {
    var ended := if l.result.NoReturn? then Panic("") else if l.result.ok then Ok("") else Err("failed");
    var run := RunRequest("", if l.RunOf? then l.unit else 0, l.identity);
    Round(Phased(if l.PrepareOf? then Prepare else if l.RunOf? then Run else Cleanup, Good(run)), ended)
  }

  lemma PlannedFor(t: seq<Letter>, l: Letter, encode: Encoder)
    requires Faithful(encode) && Allowed(t) && MayFollow(t, l)
    ensures var r := RoundFor(l);
            && r.request.Phased? && r.request.run.Good?
            && var plan := BeginPhase(StateAfter(t, encode), r.request.phase, r.request.run.value, encode).1;
               plan.Invoke? && LetterOf(plan.call, ResultOf(r.ended)) == [l]
  {
    PrepareIsFirst(t);
    hide Allowed;
  }

  /** Every letter that may follow is produced by some invocation. */
  lemma ServeReaches(t: seq<Letter>, answers: seq<Outcome>, l: Letter, features: Features, encode: Encoder)
    requires Faithful(encode) && Allowed(t) && MayFollow(t, l)
    ensures Serve(Served(StateAfter(t, encode), t, answers), RoundFor(l), features, encode).trace == t + [l]
  {
    PlannedFor(t, l, encode);
    hide Allowed, MayFollow, Faithful, BeginPhase, StateAfter, RoundFor, LetterOf, End;
  }

  lemma {:induction false} SerialTrace(rounds: seq<Round>, features: Features, encode: Encoder)
    requires Faithful(encode)
    ensures var s := Serial(rounds, features, encode);
            Allowed(s.trace) && s.state == StateAfter(s.trace, encode)
  {
    if rounds != [] {
      var before := rounds[..|rounds| - 1];
      SerialTrace(before, features, encode);
      var s := Serial(before, features, encode);
      ServeStep(s.trace, s.answers, rounds[|rounds| - 1], features, encode);
    }
  }

  lemma {:induction false} TraceReached(t: seq<Letter>, features: Features, encode: Encoder)
    returns (rounds: seq<Round>)
    requires Faithful(encode) && Allowed(t)
    ensures Serial(rounds, features, encode).trace == t
  {
    if t == [] {
      rounds := [];
    } else {
      var u, l := t[..|t| - 1], t[|t| - 1];
      assert u + [l] == t;
      AllowedPrefix(t);
      var before := TraceReached(u, features, encode);
      SerialTrace(before, features, encode);
      AllowedSnoc(u, l);
      ServeReaches(u, Serial(before, features, encode).answers, l, features, encode);
      rounds := before + [RoundFor(l)];
      assert rounds[..|rounds| - 1] == before;
    }
  }

  /** The provider-call traces that serial invocations produce are exactly the allowed ones. */
  lemma TraceLanguage(t: seq<Letter>, features: Features, encode: Encoder)
    requires Faithful(encode)
    ensures (exists rounds :: Serial(rounds, features, encode).trace == t) <==> Allowed(t)
  {
    if Allowed(t) {
      var rounds := TraceReached(t, features, encode);
    }
    if exists rounds :: Serial(rounds, features, encode).trace == t {
      var rounds :| Serial(rounds, features, encode).trace == t;
      SerialTrace(rounds, features, encode);
    }
  }

  /** Cleanup does not need a Prepare. */
  lemma CleanupWithoutPrepare(features: Features, encode: Encoder, i: Identity)
    requires Faithful(encode) && i.runID != ""
    ensures exists rounds :: Serial(rounds, features, encode).trace == [CleanupOf(i, Returned(true))]
  {
    TraceLanguage([CleanupOf(i, Returned(true))], features, encode);
  }

  /** Every Cleanup has a Prepare before it. */
  ghost predicate CleanupsPrepared(t: seq<Letter>) {
    forall j :: 0 <= j < |t| && t[j].CleanupOf? ==> exists i :: 0 <= i < j && t[i].PrepareOf?
  }

  /** The phase of a prepare or cleanup request that decodes and names a run. */
  function Opening(request: Request): seq<Phase> {
    if request.Phased? && request.phase != Run && request.run.Good? && request.run.value.identity.runID != ""
    then [request.phase] else []
  }

  /** The phase of the first such request. */
  function FirstOpening(rounds: seq<Round>): seq<Phase> {
    if rounds == [] then [] else
      var before := FirstOpening(rounds[..|rounds| - 1]);
      if before != [] then before else Opening(rounds[|rounds| - 1].request)
  }

  /** The trace so far began as the first opening request asked. */
  ghost predicate BegunAs(s: Served, opening: seq<Phase>) {
    if opening == [] then s.state == INITIAL && s.trace == []
    else s.trace != [] && if opening[0] == Prepare then s.trace[0].PrepareOf? else s.trace[0].CleanupOf?
  }

  lemma OpeningServed(s: Served, r: Round, features: Features, encode: Encoder)
    requires BegunAs(s, [])
    ensures BegunAs(Serve(s, r, features, encode), Opening(r.request))
  {
  }

  lemma BegunStays(s: Served, r: Round, opening: seq<Phase>, features: Features, encode: Encoder)
    requires BegunAs(s, opening) && opening != []
    ensures BegunAs(Serve(s, r, features, encode), opening)
  {
    hide Begin, End, LetterOf;
    assert s.trace <= Serve(s, r, features, encode).trace;
  }

  lemma {:induction false} SerialBegins(rounds: seq<Round>, features: Features, encode: Encoder)
    ensures BegunAs(Serial(rounds, features, encode), FirstOpening(rounds))
  {
    if rounds != [] {
      var before, r := rounds[..|rounds| - 1], rounds[|rounds| - 1];
      SerialBegins(before, features, encode);
      hide BegunAs, Serve;
      if FirstOpening(before) == [] {
        OpeningServed(Serial(before, features, encode), r, features, encode);
      } else {
        BegunStays(Serial(before, features, encode), r, FirstOpening(before), features, encode);
      }
    }
  }

  /** When Cleanup does follow Prepare: every Cleanup that reaches the provider has a Prepare before it if and only
      if the first prepare or cleanup request that decodes and names a run is not a cleanup. */
  lemma CleanupsPreparedIff(rounds: seq<Round>, features: Features, encode: Encoder)
    ensures CleanupsPrepared(Serial(rounds, features, encode).trace) <==> FirstOpening(rounds) != [Cleanup]
  {
    SerialBegins(rounds, features, encode);
    OpeningsAreOne(rounds);
    hide Serial;
  }

  lemma OpeningsAreOne(rounds: seq<Round>)
    ensures FirstOpening(rounds) == [] || FirstOpening(rounds) == [Prepare] || FirstOpening(rounds) == [Cleanup]
  {
  }
}
