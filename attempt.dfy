/** The `Attempt` object of lib/index.js: its fields, updated in place by one
    method per external event. Each method is proved to move the object
    exactly as `RetryMachine.Step` moves its abstract state, and to keep
    `RetryMachine.Inv`; the properties of whole runs are the lemmas of
    `RetryMachine`. */
module Attempts {
  import opened Decisions
  import opened RetryMachine

  class Attempt {
    /** False when no decision generator was given and the default one,
        which returns `false`, is used. */
    const customPolicy: bool
    var attemptNo: nat
    var error: JsValue
    var phase: Phase
    var outcome: Outcome
    var inGenerator: bool
    /** The `called` flag of each failure cycle's `decide` closure. */
    var decideCalled: seq<bool>
    /** Arguments of each promise-generator call. */
    var calls: seq<Call>
    /** Arguments of each decision-generator call. */
    var decisionCalls: seq<Call>
    /** Each `[error, attemptNo]` sent to the outcome's progress callback. */
    var notifications: seq<Call>

    /** The object's fields as a machine state. */
    function State(): RetryMachine.State
      reads this
    {
      RetryMachine.State(customPolicy, attemptNo, error, phase, outcome, inGenerator,
                         decideCalled, calls, decisionCalls, notifications)
    }

    ghost predicate Valid()
      reads this
    {
      Inv(State())
    }

    /** Sets up the fields and makes the first promise-generator call,
        with `(null, 0)`. */
    constructor (customPolicy: bool)
      ensures Valid() && State() == Init(customPolicy)
    {
      this.customPolicy := customPolicy;
      attemptNo := 0;
      error := Null;
      phase := AwaitingAttempt;
      outcome := Pending;
      inGenerator := false;
      decideCalled := [];
      calls := [Call(Null, 0)];
      decisionCalls := [];
      notifications := [];
    }

    /** `_decide`: reject, follow the thenable, or notify and arm the timer. */
    method Decide(d: JsValue)
      modifies this
      ensures State() == RetryMachine.Decide(old(State()), d)
    {
      var verdict := Classify(d);
      match verdict
      case Reject =>
        outcome := Rejected(error);
        phase := Settled;
      case Follow(id) =>
        phase := Following(id);
      case Retry(delay) =>
        notifications := notifications + [Call(error, attemptNo)];
        phase := Sleeping(delay);
    }

    /** A call of the `decide` closure of failure cycle `cycle`. */
    method DecideOnce(cycle: nat, d: JsValue)
      requires 1 <= cycle <= |decideCalled|
      modifies this
      ensures State() == RetryMachine.DecideOnce(old(State()), cycle, d)
    {
      if decideCalled[cycle - 1] {
        return;
      }
      decideCalled := decideCalled[cycle - 1 := true];
      Decide(d);
    }

    /** The decision generator returns or throws. */
    method FinishGenerator(exit: GeneratorExit)
      requires decideCalled != []
      modifies this
      ensures State() == RetryMachine.FinishGenerator(old(State()), exit)
    {
      inGenerator := false;
      var decision := Bool(false);
      if exit.Returned? {
        decision := exit.value;
      }
      if decision != Undefined {
        DecideOnce(|decideCalled|, decision);
      }
    }

    /** The promise of the current attempt fulfils with `data`. */
    method OnAttemptFulfilled(data: JsValue)
      requires Valid() && Enabled(State(), AttemptFulfilled(data))
      modifies this
      ensures Valid() && State() == Step(old(State()), AttemptFulfilled(data))
    {
      StepInv(State(), AttemptFulfilled(data));
      outcome := Resolved(data);
      phase := Settled;
    }

    /** The promise of the current attempt rejects with `reason`. */
    method OnAttemptRejected(reason: JsValue)
      requires Valid() && Enabled(State(), AttemptRejected(reason))
      modifies this
      ensures Valid() && State() == Step(old(State()), AttemptRejected(reason))
    {
      StepInv(State(), AttemptRejected(reason));
      error := reason;
      attemptNo := attemptNo + 1;
      decideCalled := decideCalled + [false];
      phase := Deciding;
      decisionCalls := decisionCalls + [Call(error, attemptNo)];
      inGenerator := true;
      if !customPolicy {
        FinishGenerator(Returned(Bool(false)));
      }
    }

    /** Someone calls the `decide` closure of failure cycle `cycle`. */
    method OnDecideCalled(cycle: nat, d: JsValue)
      requires Valid() && Enabled(State(), DecideCalled(cycle, d))
      modifies this
      ensures Valid() && State() == Step(old(State()), DecideCalled(cycle, d))
    {
      StepInv(State(), DecideCalled(cycle, d));
      DecideOnce(cycle, d);
    }

    /** The running decision generator returns or throws. */
    method OnGeneratorFinished(exit: GeneratorExit)
      requires Valid() && Enabled(State(), GeneratorFinished(exit))
      modifies this
      ensures Valid() && State() == Step(old(State()), GeneratorFinished(exit))
    {
      StepInv(State(), GeneratorFinished(exit));
      FinishGenerator(exit);
    }

    /** The followed thenable fulfils with `v`, which is decided on again. */
    method OnFollowedFulfilled(v: JsValue)
      requires Valid() && Enabled(State(), FollowedFulfilled(v))
      modifies this
      ensures Valid() && State() == Step(old(State()), FollowedFulfilled(v))
    {
      StepInv(State(), FollowedFulfilled(v));
      Decide(v);
    }

    /** The followed thenable rejects; its reason is dropped. */
    method OnFollowedRejected(reason: JsValue)
      requires Valid() && Enabled(State(), FollowedRejected(reason))
      modifies this
      ensures Valid() && State() == Step(old(State()), FollowedRejected(reason))
    {
      StepInv(State(), FollowedRejected(reason));
      Decide(Undefined);
    }

    /** The retry timer fires: the next promise-generator call is made with
        the latest error and the number of failures. */
    method OnTimerFired()
      requires Valid() && Enabled(State(), TimerFired)
      modifies this
      ensures Valid() && State() == Step(old(State()), TimerFired)
    {
      StepInv(State(), TimerFired);
      calls := calls + [Call(error, attemptNo)];
      phase := AwaitingAttempt;
    }
  }
}
