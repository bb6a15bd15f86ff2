/**
 What the lifecycle handler answers, told by the trace of provider calls so far and by how the provider ended -
 without the variables of the handler.
 */
module LifecycleAnswers {
  import opened Envelope
  import opened Lifecycle

  /** The run a trace belongs to: that of its Prepare, if it has one. */
  ghost predicate SameRun(t: seq<Letter>, i: Identity) { t != [] && t[0].PrepareOf? ==> i == t[0].identity }

  ghost predicate ReadyToRun(t: seq<Letter>) {
    t != [] && (t[|t| - 1].PrepareOf? || t[|t| - 1].RunOf?)
    && (if t[|t| - 1].PrepareOf? then t[|t| - 1].result == Returned(true) else t[|t| - 1].result.Returned?)
  }

  ghost predicate CleanedUp(t: seq<Letter>) { t != [] && t[|t| - 1].CleanupOf? && t[|t| - 1].result == Returned(true) }

  /** The unit a run request means: 1 if neither it nor the compiled input names one. */
  function AskedUnit(r: RunRequest): int { if r.unit != 0 || r.identity.units != 0 then r.unit else 1 }

  /** Why a phase request does not reach the provider, after trace t; "" if it does, or needs no provider. */
  ghost function Refusal(t: seq<Letter>, phase: Phase, r: RunRequest): string {
    if r.identity.runID == "" then "special: run ID required"
    else if phase != Prepare && !SameRun(t, r.identity) then "special: run identity or compiled input changed"
    else if phase == Prepare && t != [] then "special: already prepared"
    else if phase == Run && !ReadyToRun(t) then "special: run requires prepare"
    else if phase == Run && !(AskedUnit(r) == Runs(t) + 1 && (AskedUnit(r) <= r.identity.units || AskedUnit(r) <= 1))
    then "special: unit identity already used or out of order"
    else ""
  }

  /** The letter that a phase request adds when its provider call ends with e. */
  function LetterFor(phase: Phase, r: RunRequest, e: Ended): Letter {
    var result := match e case Ok(_) => Returned(true) case Err(_) => Returned(false) case Panic(_) => NoReturn;
    match phase
    case Prepare => PrepareOf(r.identity, result)
    case Run => RunOf(r.identity, AskedUnit(r), result)
    case Cleanup => CleanupOf(r.identity, result)
  }

  /** A provider call that ended with e is answered with its value, its error text, or its panic. */
  predicate Reports(answer: Outcome, e: Ended, value: string) {
    match e
    case Ok(_) => answer == Value(value)
    case Err(text) => answer == Failed(text)
    case Panic(detail) => answer == Panicked(detail)
  }

  /** A phase round, in every case: what it adds to the trace, and what it is answered. */
  ghost predicate PhaseTold(t: seq<Letter>, phase: Phase, r: RunRequest, e: Ended, u: seq<Letter>, answer: Outcome) {
    if Refusal(t, phase, r) != "" then u == t && answer == Failed(Refusal(t, phase, r))
    else if phase == Cleanup && CleanedUp(t) then u == t && answer == Value("null")
    else
      && u == t + [LetterFor(phase, r, e)]
      && Reports(answer, e, if phase == Run && e.Ok? then e.value else "null")
  }

  /** A round of any other request adds nothing. */
  ghost predicate OtherTold(t: seq<Letter>, q: Request, e: Ended, features: Features, answer: Outcome) {
    var value := if e.Ok? then e.value else "";
    match q
    case Health => if features.health then Reports(answer, e, value) else answer == Value("ready")
    case Snapshot =>
      if !(CleanedUp(t) || (t != [] && t[|t| - 1].RunOf? && t[|t| - 1].result.Returned?)) then
        answer == Failed("special: snapshot unavailable")
      else if features.snapshot then Reports(answer, e, value)
      else answer == Failed("special: snapshot unsupported")
    case Describe => Reports(answer, e, value)
    case Stateless(payload) => if payload.Bad? then answer == Failed(payload.error) else Reports(answer, e, value)
    case Unknown(verb) => answer == Failed("special: unknown method " + verb)
    case Phased(_, run) => run.Bad? && answer == Failed(run.error)
  }

  ghost predicate RoundTold(t: seq<Letter>, r: Round, features: Features, u: seq<Letter>, answer: Outcome) {
    if r.request.Phased? && r.request.run.Good? then
      PhaseTold(t, r.request.phase, r.request.run.value, r.ended, u, answer)
    else
      u == t && OtherTold(t, r.request, r.ended, features, answer)
  }

  /** The same by the method that was called, with what each makes of its payload. */
  ghost predicate CallTold(t: seq<Letter>, verb: string, raw: string, e: Ended, features: Features, d: Decoders,
        u: seq<Letter>, answer: Outcome)
  {
    var run, other := d.run(raw), d.other(verb, raw);
    var value := if e.Ok? then e.value else "";
    && (verb in {"prepare", "run", "cleanup"} && run.Bad? ==> u == t && answer == Failed(run.error))
    && (verb == "prepare" && run.Good? ==> PhaseTold(t, Prepare, run.value, e, u, answer))
    && (verb == "run" && run.Good? ==> PhaseTold(t, Run, run.value, e, u, answer))
    && (verb == "cleanup" && run.Good? ==> PhaseTold(t, Cleanup, run.value, e, u, answer))
    && (verb == "health" ==> u == t && OtherTold(t, Health, e, features, answer))
    && (verb == "snapshot" ==> u == t && OtherTold(t, Snapshot, e, features, answer))
    && (verb == "describe" ==> u == t && Reports(answer, e, value))
    && (verb in {"template", "compile", "report.prepare", "report.render"} ==>
          u == t && if other.Bad? then answer == Failed(other.error) else Reports(answer, e, value))
    && (verb !in {"prepare", "run", "cleanup", "health", "snapshot", "describe", "template", "compile",
                  "report.prepare", "report.render"} ==>
          u == t && answer == Failed("special: unknown method " + verb))
  }

  lemma UnderstoodTold(t: seq<Letter>, verb: string, raw: string, e: Ended, features: Features, d: Decoders,
        u: seq<Letter>, answer: Outcome)
    requires RoundTold(t, Round(Understood(verb, raw, d), e), features, u, answer)
    ensures CallTold(t, verb, raw, e, features, d, u, answer)
  {
    hide PhaseTold, Reports;
  }

  lemma StepsAfter(t: seq<Letter>)
    ensures ReadyToRun(t) <==> StepAfter(t) == Prepared || StepAfter(t) == Finished
    ensures CleanedUp(t) <==> StepAfter(t) == Cleaned
    ensures t != [] && t[|t| - 1].RunOf? && t[|t| - 1].result.Returned? <==> StepAfter(t) == Finished
    ensures t == [] <==> StepAfter(t) == New
  {
  }

  ghost predicate PhaseAnswered(t: seq<Letter>, answers: seq<Outcome>, phase: Phase, r: RunRequest, e: Ended,
        features: Features, encode: Encoder)
  {
    var s := Serve(Served(StateAfter(t, encode), t, answers), Round(Phased(phase, Good(r)), e), features, encode);
    |s.answers| == |answers| + 1 && PhaseTold(t, phase, r, e, s.trace, s.answers[|answers|])
  }

  lemma PrepareServed(t: seq<Letter>, answers: seq<Outcome>, r: RunRequest, e: Ended, features: Features,
        encode: Encoder)
    requires Faithful(encode)
    ensures PhaseAnswered(t, answers, Prepare, r, e, features, encode)
  {
    StepsAfter(t);
    FrozenSame(t, r.identity, encode);
    hide ReadyToRun, CleanedUp, StepAfter, Faithful, Runs;
  }

  lemma RunPlanned(t: seq<Letter>, r: RunRequest, encode: Encoder)
    requires Faithful(encode)
    ensures var (s, refusal) := (StateAfter(t, encode), Refusal(t, Run, r));
            BeginPhase(s, Run, r, encode) ==
            if refusal != "" then (s, Answer(Failed(refusal)))
            else (s.(lastUnit := AskedUnit(r), step := Running), Invoke(RunCall(r, AskedUnit(r))))
  {
    StepsAfter(t);
    FrozenSame(t, r.identity, encode);
    hide ReadyToRun, CleanedUp, StepAfter, Faithful, Runs;
  }

  lemma RunServed(t: seq<Letter>, answers: seq<Outcome>, r: RunRequest, e: Ended, features: Features, encode: Encoder)
    requires Faithful(encode)
    ensures PhaseAnswered(t, answers, Run, r, e, features, encode)
  {
    RunPlanned(t, r, encode);
    hide BeginPhase, Refusal, StateAfter, AskedUnit, Faithful;
  }

  lemma CleanupServed(t: seq<Letter>, answers: seq<Outcome>, r: RunRequest, e: Ended, features: Features,
        encode: Encoder)
    requires Faithful(encode)
    ensures PhaseAnswered(t, answers, Cleanup, r, e, features, encode)
  {
    StepsAfter(t);
    FrozenSame(t, r.identity, encode);
    hide ReadyToRun, CleanedUp, StepAfter, Faithful, Runs;
  }

  lemma OtherServed(t: seq<Letter>, answers: seq<Outcome>, r: Round, features: Features, encode: Encoder)
    requires !(r.request.Phased? && r.request.run.Good?)
    ensures var s := Serve(Served(StateAfter(t, encode), t, answers), r, features, encode);
            && |s.answers| == |answers| + 1 && s.trace == t
            && OtherTold(t, r.request, r.ended, features, s.answers[|answers|])
  {
    StepsAfter(t);
    hide ReadyToRun, CleanedUp, StepAfter, Runs;
  }

  lemma RoundServed(t: seq<Letter>, answers: seq<Outcome>, r: Round, features: Features, encode: Encoder)
    requires Faithful(encode)
    ensures var s := Serve(Served(StateAfter(t, encode), t, answers), r, features, encode);
            |s.answers| == |answers| + 1 && s.answers[..|answers|] == answers
            && RoundTold(t, r, features, s.trace, s.answers[|answers|])
  {
    hide Begin, End, StateAfter, PhaseTold, OtherTold;
    if r.request.Phased? && r.request.run.Good? {
      assert r == Round(Phased(r.request.phase, Good(r.request.run.value)), r.ended);
      match r.request.phase
      case Prepare => PrepareServed(t, answers, r.request.run.value, r.ended, features, encode);
      case Run => RunServed(t, answers, r.request.run.value, r.ended, features, encode);
      case Cleanup => CleanupServed(t, answers, r.request.run.value, r.ended, features, encode);
    } else {
      OtherServed(t, answers, r, features, encode);
    }
  }

  /** In every serial execution each round is answered as the trace before it and the end of its provider call say,
      and adds to the trace exactly what they say. */
  lemma {:induction false} AnswersTold(rounds: seq<Round>, i: nat, features: Features, encode: Encoder)
    requires Faithful(encode) && i < |rounds|
    ensures var before, after := Serial(rounds[..i], features, encode), Serial(rounds[..i + 1], features, encode);
            var s := Serial(rounds, features, encode);
            && |s.answers| == |rounds| && after.trace <= s.trace
            && RoundTold(before.trace, rounds[i], features, after.trace, s.answers[i])
  {
    hide Serve, RoundTold, Faithful;
    var n := |rounds| - 1;
    var s := Serial(rounds[..n], features, encode);
    AnswersCounted(rounds[..n], features, encode);
    SerialTrace(rounds[..n], features, encode);
    RoundServed(s.trace, s.answers, rounds[n], features, encode);
    ServeGrows(s, rounds[n], features, encode);
    if i < n {
      AnswersTold(rounds[..n], i, features, encode);
      assert rounds[..n][..i] == rounds[..i] && rounds[..n][..i + 1] == rounds[..i + 1];
      assert Serial(rounds, features, encode).answers[i] == s.answers[i] by {
        assert Serial(rounds, features, encode).answers[..n] == s.answers;
      }
    } else {
      assert rounds[..i + 1] == rounds;
    }
  }

  lemma ServeGrows(s: Served, r: Round, features: Features, encode: Encoder)
    ensures s.trace <= Serve(s, r, features, encode).trace
  {
    hide Begin, End, LetterOf;
  }

  lemma {:induction false} AnswersCounted(rounds: seq<Round>, features: Features, encode: Encoder)
    ensures |Serial(rounds, features, encode).answers| == |rounds|
  {
    hide Begin, End;
    if rounds != [] {
      AnswersCounted(rounds[..|rounds| - 1], features, encode);
    }
  }

  // ---------- what the provider is called with ----------

  /** The provider is handed the request itself: its epoch and unit, and the run it names. */
  lemma ProviderGetsRequest(s: State, request: Request, features: Features, encode: Encoder)
    ensures var plan := Begin(s, request, features, encode).1;
            plan.Invoke? && !plan.call.OtherCall? ==>
              && request.Phased? && request.run.Good? && plan.call.run == request.run.value
              && (plan.call.PrepareCall? <==> request.phase == Prepare)
              && (plan.call.RunCall? <==> request.phase == Run)
              && (plan.call.CleanupCall? <==> request.phase == Cleanup)
  {
  }
}
