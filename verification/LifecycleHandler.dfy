/**
 The handler closure as an object: its captured variables are the fields, and every critical section assigns
 them step by step. The serial functions of Lifecycle say what each one computes.
 */
module LifecycleHandler {
  import opened Envelope
  import opened Lifecycle
  import opened LifecycleAnswers

  class Handler {
    const features: Features
    const encode: Encoder

    var locked: bool
    var step: Step
    var lastUnit: int
    var frozen: string

    ghost var trace: seq<Letter>   // the lifecycle calls that have returned or panicked

    function Captured(): State
      reads this
    {
      State(step, lastUnit, frozen)
    }

    /** With the gate free the variables are those that the trace leaves, and the trace is an allowed one. */
    ghost predicate Valid()
      reads this
    {
      Faithful(encode) && (!locked ==> Allowed(trace) && Captured() == StateAfter(trace, encode))
    }

    constructor (features: Features, encode: Encoder)
      requires Faithful(encode)
      ensures Valid() && !locked && Captured() == INITIAL && trace == []
      ensures this.features == features && this.encode == encode
    {
      this.features, this.encode := features, encode;
      locked, step, lastUnit, frozen, trace := false, New, 0, "", [];
    }

    method TryLock() returns (won: bool)
      modifies this`locked
      ensures locked && won == !old(locked)
    {
      won := !locked;
      if won {
        locked := true;
      }
    }

    method EnterPrepare(r: RunRequest, encoded: string) returns (plan: Plan)
      requires r.identity.runID != "" && encoded == encode(r.identity)
      modifies this`step, this`frozen
      ensures (Captured(), plan) == BeginPhase(old(Captured()), Prepare, r, encode)
    {
      if step != New {
        return Answer(Failed("special: already prepared"));
      }
      frozen := encoded;
      step := Preparing;
      return Invoke(PrepareCall(r));
    }

    method EnterRun(r: RunRequest, encoded: string) returns (plan: Plan)
      requires r.identity.runID != "" && encoded == encode(r.identity) && (|frozen| > 0 ==> frozen == encoded)
      modifies this`step, this`lastUnit
      ensures (Captured(), plan) == BeginPhase(old(Captured()), Run, r, encode)
    {
      if step != Prepared && step != Finished {
        return Answer(Failed("special: run requires prepare"));
      }
      var unit := r.unit;
      if unit == 0 && r.identity.units == 0 {
        unit := 1;
      }
      if unit != lastUnit + 1 || unit > Max(r.identity.units, 1) {
        return Answer(Failed("special: unit identity already used or out of order"));
      }
      lastUnit := unit;
      step := Running;
      return Invoke(RunCall(r, unit));
    }

    method EnterCleanup(r: RunRequest, encoded: string) returns (plan: Plan)
      requires r.identity.runID != "" && encoded == encode(r.identity) && (|frozen| > 0 ==> frozen == encoded)
      modifies this`step
      ensures (Captured(), plan) == BeginPhase(old(Captured()), Cleanup, r, encode)
    {
      if step == Cleaned {
        return Answer(Value("null"));
      }
      step := Cleaning;
      return Invoke(CleanupCall(r));
    }

    method EnterPhase(phase: Phase, r: RunRequest) returns (plan: Plan)
      modifies this`step, this`lastUnit, this`frozen
      ensures (Captured(), plan) == BeginPhase(old(Captured()), phase, r, encode)
    {
      if r.identity.runID == "" {
        return Answer(Failed("special: run ID required"));
      }
      var encoded := encode(r.identity);
      if phase != Prepare && |frozen| > 0 && frozen != encoded {
        return Answer(Failed("special: run identity or compiled input changed"));
      }
      match phase
      case Prepare => plan := EnterPrepare(r, encoded);
      case Run => plan := EnterRun(r, encoded);
      case Cleanup => plan := EnterCleanup(r, encoded);
    }

    /** The switch over methods, up to the provider call. */
    method Enter(request: Request) returns (plan: Plan)
      modifies this`step, this`lastUnit, this`frozen
      ensures (Captured(), plan) == Begin(old(Captured()), request, features, encode)
    {
      hide BeginPhase;
      match request
      case Health => return if features.health then Invoke(OtherCall) else Answer(Value("ready"));
      case Snapshot =>
        if step != Finished && step != Cleaned {
          return Answer(Failed("special: snapshot unavailable"));
        }
        return if features.snapshot then Invoke(OtherCall) else Answer(Failed("special: snapshot unsupported"));
      case Describe => return Invoke(OtherCall);
      case Stateless(payload) => return if payload.Bad? then Answer(Failed(payload.error)) else Invoke(OtherCall);
      case Phased(phase, run) =>
        if run.Bad? {
          return Answer(Failed(run.error));
        }
        plan := EnterPhase(phase, run.value);
      case Unknown(verb) => return Answer(Failed("special: unknown method " + verb));
    }

    /** What follows the provider call; a panic unwinds past it. */
    method Resume(call: Call, ended: Ended)
      modifies this`step
      ensures Captured() == End(old(Captured()), call, ended)
    {
      if ended.Panic? {
        return;
      }
      match call
      case PrepareCall(_) =>
        if ended.Err? {
          step := PrepareFailed;
        } else {
          step := Prepared;
        }
      case RunCall(_, _) => step := Finished;
      case CleanupCall(_) =>
        if ended.Ok? {
          step := Cleaned;
        }
      case OtherCall =>
    }

    /** One whole invocation with a provider that ends its call, if it gets one, as `ended` says. A loser of the
        try-lock changes nothing; a winner does one round of the serial execution and gives the gate back. */
    method Handle(verb: string, raw: string, d: Decoders, ended: Ended) returns (outcome: Outcome)
      requires Valid()
      modifies this
      ensures Valid() && locked == old(locked)
      ensures old(locked) ==>
              outcome == Failed("special: lifecycle busy") && Captured() == old(Captured()) && trace == old(trace)
      ensures !old(locked) ==> CallTold(old(trace), verb, raw, ended, features, d, trace, outcome)
      ensures !old(locked) ==>
        Served(Captured(), trace, [outcome]) ==
        Serve(Served(old(Captured()), old(trace), []), Round(Understood(verb, raw, d), ended), features, encode)
    {
      var won := TryLock();
      if !won {
        return Failed("special: lifecycle busy");
      }
      hide Allowed, StateAfter, Begin, End, Faithful, RoundTold, CallTold, Understood;
      var request := Understood(verb, raw, d);
      ServeStep(trace, [], Round(request, ended), features, encode);
      RoundServed(trace, [], Round(request, ended), features, encode);
      var plan := Enter(request);
      if plan.Answer? {
        outcome := plan.outcome;
      } else {
        Resume(plan.call, ended);
        trace := trace + LetterOf(plan.call, ResultOf(ended));
        outcome := AnswerOf(plan.call, ended);
      }
      locked := false;
      UnderstoodTold(old(trace), verb, raw, ended, features, d, trace, outcome);
    }
  }
}
