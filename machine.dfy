/** The retry state machine of `Attempt` (lib/index.js) as pure values: one
    state record, the external events that drive it, the transition function,
    the invariant every reachable state keeps, and what follows for whole
    runs of events. */
module RetryMachine {
  import opened Decisions

  /** Where the machine stands. */
  datatype Phase =
    | AwaitingAttempt          // the promise of the current attempt is pending
    | Deciding                 // this failure cycle's `decide` has not been called yet
    | Following(thenable: nat) // waiting on a thenable returned as decision
    | Sleeping(delay: JsValue) // a retry timer is armed
    | Settled                  // the outcome promise is resolved or rejected

  /** The state of the promise handed to the caller. */
  datatype Outcome = Pending | Resolved(value: JsValue) | Rejected(reason: JsValue)

  /** The `(error, attemptNo)` pair passed to a generator or a progress
      callback. */
  datatype Call = Call(error: JsValue, attemptNo: nat)

  /** All fields of one `Attempt`, plus the observable logs:
      `calls` the arguments of each promise-generator call,
      `decisionCalls` those of each decision-generator call,
      `notifications` each progress notification. `decideCalled[c - 1]` is
      the `called` flag of the `decide` closure of failure cycle `c`;
      `inGenerator` holds while the decision generator is running. A
      `customPolicy` of false means the default decision generator. */
  datatype State = State(
    customPolicy: bool,
    attemptNo: nat,
    error: JsValue,
    phase: Phase,
    outcome: Outcome,
    inGenerator: bool,
    decideCalled: seq<bool>,
    calls: seq<Call>,
    decisionCalls: seq<Call>,
    notifications: seq<Call>)

  /** How a decision-generator call ended. */
  datatype GeneratorExit = Returned(value: JsValue) | Threw

  /** The things that happen to an `Attempt` from outside. */
  datatype Event =
    | AttemptFulfilled(data: JsValue)          // the attempt's promise fulfils
    | AttemptRejected(reason: JsValue)         // the attempt's promise rejects
    | DecideCalled(cycle: nat, decision: JsValue) // someone calls cycle's `decide`
    | GeneratorFinished(exit: GeneratorExit)   // the decision generator returns or throws
    | FollowedFulfilled(value: JsValue)        // the followed thenable fulfils
    | FollowedRejected(reason: JsValue)        // the followed thenable rejects
    | TimerFired                               // the retry timer expires

  /** The state right after construction: the first promise-generator call
      has been made with `(null, 0)`. */
  function Init(customPolicy: bool): (s: State)
    ensures Inv(s) && s.outcome == Pending && s.calls == [Call(Null, 0)]
  {
    State(customPolicy, 0, Null, AwaitingAttempt, Pending, false, [], [Call(Null, 0)], [], [])
  }

  /** Which events can happen in a state: promise callbacks only for the
      pending promise, `decide` only for a closure that exists, a generator
      exit only while it runs, and a timer never in the middle of the
      generator's synchronous call. */
  predicate Enabled(s: State, e: Event)
    ensures Enabled(s, e) && s.phase.Settled? ==> e.DecideCalled? || e.GeneratorFinished?
  {
    match e
    case AttemptFulfilled(_) => s.phase.AwaitingAttempt?
    case AttemptRejected(_) => s.phase.AwaitingAttempt?
    case DecideCalled(c, _) => 1 <= c <= |s.decideCalled|
    case GeneratorFinished(_) => s.inGenerator && s.decideCalled != []
    case FollowedFulfilled(_) => s.phase.Following?
    case FollowedRejected(_) => s.phase.Following?
    case TimerFired => s.phase.Sleeping? && !s.inGenerator
  }

  /** `_decide`: reject with the last error, follow a thenable, or notify
      `[error, attemptNo]` and arm the timer with the decision as delay. */
  function Decide(s: State, d: JsValue): (t: State)
    ensures t.attemptNo == s.attemptNo && t.error == s.error && t.calls == s.calls
    ensures t.decideCalled == s.decideCalled && t.decisionCalls == s.decisionCalls
    ensures IsStopValue(d) <==> t.phase == Settled && t.outcome == Rejected(s.error)
    ensures d.Thenable? <==> t.phase.Following?
    ensures d.Thenable? ==> t.phase == Following(d.id) && t.outcome == s.outcome
    ensures t.phase.Sleeping? <==> !IsStopValue(d) && !d.Thenable?
    ensures t.phase.Sleeping? ==>
      t.phase.delay == d && t.notifications == s.notifications + [Call(s.error, s.attemptNo)]
    ensures !t.phase.Sleeping? ==> t.notifications == s.notifications
    ensures t.inGenerator == s.inGenerator && t.customPolicy == s.customPolicy
    ensures !IsStopValue(d) ==> t.outcome == s.outcome
  {
    match Classify(d)
    case Reject => s.(phase := Settled, outcome := Rejected(s.error))
    case Follow(id) => s.(phase := Following(id))
    case Retry(delay) =>
      s.(phase := Sleeping(delay), notifications := s.notifications + [Call(s.error, s.attemptNo)])
  }

  /** The closure made by `createDecide` for failure cycle `cycle`: the first
      call marks it used and decides; every later call does nothing. */
  function DecideOnce(s: State, cycle: nat, d: JsValue): (t: State)
    requires 1 <= cycle <= |s.decideCalled|
    ensures |t.decideCalled| == |s.decideCalled| && t.decideCalled[cycle - 1]
    ensures s.decideCalled[cycle - 1] ==> t == s
    ensures !s.decideCalled[cycle - 1] ==>
      t == Decide(s.(decideCalled := s.decideCalled[cycle - 1 := true]), d)
  {
    if s.decideCalled[cycle - 1] then s
    else Decide(s.(decideCalled := s.decideCalled[cycle - 1 := true]), d)
  }

  /** The end of the decision generator's call in `_attempt`: a throw leaves
      the decision at `false`; a returned value other than `undefined` is
      passed to this cycle's `decide`. */
  function FinishGenerator(s: State, exit: GeneratorExit): (t: State)
    requires s.decideCalled != []
    ensures !t.inGenerator
    ensures exit.Threw? && !s.decideCalled[|s.decideCalled| - 1] ==>
      t == Decide(s.(inGenerator := false, decideCalled := s.decideCalled[|s.decideCalled| - 1 := true]), Bool(false))
    ensures exit == Returned(Undefined) ==> t == s.(inGenerator := false)
    ensures exit.Returned? && exit.value != Undefined ==>
      t == DecideOnce(s.(inGenerator := false), |s.decideCalled|, exit.value)
    ensures s.decideCalled[|s.decideCalled| - 1] ==> t == s.(inGenerator := false)
  {
    var t := s.(inGenerator := false);
    match exit
    case Threw => DecideOnce(t, |s.decideCalled|, Bool(false))
    case Returned(v) => if v == Undefined then t else DecideOnce(t, |s.decideCalled|, v)
  }

  /** A rejected attempt: record the error, count the failure, open a new
      failure cycle and call the decision generator with `(error, attemptNo)`.
      The default generator returns `false` at once. */
  function RejectAttempt(s: State, reason: JsValue): (t: State)
    ensures t.error == reason && t.attemptNo == s.attemptNo + 1
    ensures t.decideCalled == s.decideCalled + [!s.customPolicy]
    ensures t.decisionCalls == s.decisionCalls + [Call(reason, s.attemptNo + 1)]
    ensures t.calls == s.calls && t.notifications == s.notifications
    ensures s.customPolicy ==> t.phase == Deciding && t.inGenerator && t.outcome == s.outcome
    ensures !s.customPolicy ==> t.phase == Settled && t.outcome == Rejected(reason) && !t.inGenerator
  {
    var t := s.(error := reason, attemptNo := s.attemptNo + 1, phase := Deciding,
                inGenerator := true, decideCalled := s.decideCalled + [false],
                decisionCalls := s.decisionCalls + [Call(reason, s.attemptNo + 1)]);
    if s.customPolicy then t else FinishGenerator(t, Returned(Bool(false)))
  }

  /** One event. */
  function Step(s: State, e: Event): (t: State)
    requires Enabled(s, e)
    ensures t.customPolicy == s.customPolicy
    ensures t.attemptNo == s.attemptNo + (if e.AttemptRejected? then 1 else 0)
    ensures s.calls <= t.calls && s.decisionCalls <= t.decisionCalls
    ensures s.notifications <= t.notifications
    ensures t.calls != s.calls ==> e.TimerFired? && t.calls == s.calls + [Call(s.error, s.attemptNo)]
  {
    match e
    case AttemptFulfilled(data) => s.(phase := Settled, outcome := Resolved(data))
    case AttemptRejected(reason) => RejectAttempt(s, reason)
    case DecideCalled(c, d) => DecideOnce(s, c, d)
    case GeneratorFinished(exit) => FinishGenerator(s, exit)
    case FollowedFulfilled(v) => Decide(s, v)
    case FollowedRejected(_) => Decide(s, Undefined)
    case TimerFired => s.(phase := AwaitingAttempt, calls := s.calls + [Call(s.error, s.attemptNo)])
  }

  /** Every event of `es` is enabled when it happens. */
  predicate Admissible(s: State, es: seq<Event>)
    decreases |es|
  {
    es == [] || (Enabled(s, es[0]) && Admissible(Step(s, es[0]), es[1..]))
  }

  /** The state after the events `es`. */
  function Run(s: State, es: seq<Event>): State
    requires Admissible(s, es)
    decreases |es|
  {
    if es == [] then s else Run(Step(s, es[0]), es[1..])
  }

  /** The values with which the attempts of `es` rejected, in order. */
  function Rejections(es: seq<Event>): seq<JsValue>
  {
    if es == [] then []
    else (if es[0].AttemptRejected? then [es[0].reason] else []) + Rejections(es[1..])
  }

  /** What holds of every reachable state.
      - Each failure raised `attemptNo` by one and called the decision
        generator with `(error, attemptNo)`; `error` is the latest failure
        (or `null` before any).
      - The first promise-generator call got `(null, 0)`, call `k` got the
        error of failure `k` and `k`; a new call is made only while an
        attempt is pending or after it fulfilled.
      - Notification `k` carries the arguments of promise-generator call
        `k + 1`; the one of a sleeping machine is not yet followed by its
        call.
      - Every `decide` closure but the current cycle's while deciding has
        been used.
      - The default policy never gets past its first failure. */
  ghost predicate Inv(s: State)
  {
    && |s.decideCalled| == s.attemptNo
    && |s.decisionCalls| == s.attemptNo
    && (forall k :: 0 <= k < |s.decisionCalls| ==> s.decisionCalls[k].attemptNo == k + 1)
    && s.error == (if s.attemptNo == 0 then Null else s.decisionCalls[s.attemptNo - 1].error)
    && 1 <= |s.calls| && s.calls[0] == Call(Null, 0)
    && |s.calls| == s.attemptNo + (if s.phase.AwaitingAttempt? || s.outcome.Resolved? then 1 else 0)
    && (forall k :: 1 <= k < |s.calls| ==> s.calls[k] == s.decisionCalls[k - 1])
    && |s.notifications| == |s.calls| - (if s.phase.Sleeping? then 0 else 1)
    && |s.notifications| <= |s.decisionCalls|
    && (forall k :: 0 <= k < |s.notifications| ==> s.notifications[k] == s.decisionCalls[k])
    && (forall k :: 0 <= k < |s.decideCalled| ==>
          s.decideCalled[k] || (s.phase.Deciding? && k == |s.decideCalled| - 1))
    && (s.phase.Deciding? ==> s.attemptNo >= 1 && !s.decideCalled[s.attemptNo - 1])
    && (s.inGenerator ==> s.customPolicy && s.attemptNo >= 1 && !s.phase.AwaitingAttempt?)
    && (!s.customPolicy ==> (s.phase.AwaitingAttempt? || s.phase.Settled?) && |s.calls| == 1)
    && (s.phase.Settled? <==> !s.outcome.Pending?)
    && (s.outcome.Rejected? ==> s.attemptNo >= 1 && s.outcome.reason == s.error)
  }

  /** `_decide` keeps the invariant once the current cycle's `decide` is
      used up, whether it came from that closure or a followed thenable. */
  lemma DecideInv(s: State, d: JsValue)
    requires Inv(s) && (s.phase.Following? || s.phase.Deciding?)
    ensures Inv(Decide(s.(decideCalled := s.decideCalled[s.attemptNo - 1 := true]), d))
  {
  }

  lemma DecideOnceInv(s: State, c: nat, d: JsValue)
    requires Inv(s) && 1 <= c <= |s.decideCalled|
    ensures Inv(DecideOnce(s, c, d))
  {
    if !s.decideCalled[c - 1] {
      DecideInv(s, d);
    }
  }

  lemma FinishGeneratorInv(s: State, exit: GeneratorExit)
    requires Inv(s) && s.inGenerator && s.decideCalled != []
    ensures Inv(FinishGenerator(s, exit))
  {
    DecideOnceInv(s.(inGenerator := false), |s.decideCalled|, if exit.Threw? then Bool(false) else exit.value);
  }

  lemma RejectAttemptInv(s: State, reason: JsValue)
    requires Inv(s) && s.phase.AwaitingAttempt?
    ensures Inv(RejectAttempt(s, reason))
  {
  }

  lemma StepInv(s: State, e: Event)
    requires Inv(s) && Enabled(s, e)
    ensures Inv(Step(s, e))
  {
    match e
    case AttemptFulfilled(_) =>
    case AttemptRejected(reason) => RejectAttemptInv(s, reason);
    case DecideCalled(c, d) => DecideOnceInv(s, c, d);
    case GeneratorFinished(exit) => FinishGeneratorInv(s, exit);
    case FollowedFulfilled(v) => DecideInv(s, v);
    case FollowedRejected(_) => DecideInv(s, Undefined);
    case TimerFired =>
  }

  /** Every state reachable by admissible events keeps the invariant. */
  lemma {:induction false} RunInv(s: State, es: seq<Event>)
    requires Inv(s) && Admissible(s, es)
    ensures Inv(Run(s, es))
    decreases |es|
  {
    if es != [] {
      StepInv(s, es[0]);
      RunInv(Step(s, es[0]), es[1..]);
    }
  }

  /** Once the outcome is settled nothing observable changes any more: no
      further generator call, notification or decision takes effect; at most
      a still running decision generator returns. */
  lemma {:induction false} SettledIsFinal(s: State, es: seq<Event>)
    requires Inv(s) && s.phase.Settled? && Admissible(s, es)
    ensures Run(s, es) == s || Run(s, es) == s.(inGenerator := false)
    decreases |es|
  {
    if es != [] {
      var t := Step(s, es[0]);
      assert t == s || t == s.(inGenerator := false);
      StepInv(s, es[0]);
      SettledIsFinal(t, es[1..]);
    }
  }

  /** Along any run the attempt counter never goes down, the logs only grow
      at their ends, and a failure cycle's used `decide` stays used. */
  lemma {:induction false} RunGrowsLogs(s: State, es: seq<Event>)
    requires Admissible(s, es)
    ensures Run(s, es).attemptNo >= s.attemptNo
    ensures s.calls <= Run(s, es).calls
    ensures s.decisionCalls <= Run(s, es).decisionCalls
    ensures s.notifications <= Run(s, es).notifications
    ensures |s.decideCalled| <= |Run(s, es).decideCalled|
    ensures forall c :: 0 <= c < |s.decideCalled| && s.decideCalled[c] ==> Run(s, es).decideCalled[c]
    decreases |es|
  {
    if es != [] {
      RunGrowsLogs(Step(s, es[0]), es[1..]);
    }
  }

  /** The attempt counter counts the rejected attempts and nothing else, and
      `error` is the value of the latest rejection. */
  lemma {:induction false} RunCountsRejections(s: State, es: seq<Event>)
    requires Admissible(s, es)
    ensures Run(s, es).attemptNo == s.attemptNo + |Rejections(es)|
    ensures Rejections(es) == [] ==> Run(s, es).error == s.error
    ensures Rejections(es) != [] ==> Run(s, es).error == Rejections(es)[|Rejections(es)| - 1]
    decreases |es|
  {
    if es != [] {
      RunCountsRejections(Step(s, es[0]), es[1..]);
    }
  }

  /** The decision-generator calls made for the rejection values `r` when
      `n` failures came before them. */
  function DecisionCallsFor(r: seq<JsValue>, n: nat): seq<Call>
    decreases |r|
  {
    if r == [] then [] else [Call(r[0], n + 1)] + DecisionCallsFor(r[1..], n + 1)
  }

  /** Entry `i` of `DecisionCallsFor(r, n)` is failure `n + i + 1` with
      value `r[i]`. */
  lemma {:induction false} DecisionCallsForAt(r: seq<JsValue>, n: nat, i: nat)
    requires i < |r|
    ensures |DecisionCallsFor(r, n)| == |r|
    ensures DecisionCallsFor(r, n)[i] == Call(r[i], n + i + 1)
    decreases |r|
  {
    if i == 0 {
      DecisionCallsForLength(r[1..], n + 1);
    } else {
      DecisionCallsForAt(r[1..], n + 1, i - 1);
    }
  }

  lemma {:induction false} DecisionCallsForLength(r: seq<JsValue>, n: nat)
    ensures |DecisionCallsFor(r, n)| == |r|
    decreases |r|
  {
    if r != [] {
      DecisionCallsForLength(r[1..], n + 1);
    }
  }

  /** The decision generator is called once per rejected attempt, in order,
      with that attempt's value and the failure count. */
  lemma {:induction false} RunLogsRejections(s: State, es: seq<Event>)
    requires Admissible(s, es)
    ensures Run(s, es).decisionCalls == s.decisionCalls + DecisionCallsFor(Rejections(es), s.attemptNo)
    decreases |es|
  {
    if es != [] {
      var t := Step(s, es[0]);
      RunLogsRejections(t, es[1..]);
      var r' := Rejections(es[1..]);
      if es[0].AttemptRejected? {
        assert Rejections(es) == [es[0].reason] + r';
        assert ([es[0].reason] + r')[1..] == r';
        assert t.decisionCalls == s.decisionCalls + [Call(es[0].reason, s.attemptNo + 1)];
        assert DecisionCallsFor(Rejections(es), s.attemptNo)
          == [Call(es[0].reason, s.attemptNo + 1)] + DecisionCallsFor(r', s.attemptNo + 1);
      } else {
        assert Rejections(es) == r';
        assert t.decisionCalls == s.decisionCalls;
      }
    }
  }

  /** From construction on, the promise generator is first called with
      `(null, 0)` and its call `k` gets the error of the `k`-th failure and
      `k`, the very pair the decision generator got for that failure; every
      rejected outcome carries the latest failure's error. */
  lemma GeneratorArguments(customPolicy: bool, es: seq<Event>)
    requires Admissible(Init(customPolicy), es)
    ensures 1 <= |Run(Init(customPolicy), es).calls| <= Run(Init(customPolicy), es).attemptNo + 1
    ensures |Run(Init(customPolicy), es).decisionCalls| == Run(Init(customPolicy), es).attemptNo
    ensures Run(Init(customPolicy), es).calls[0] == Call(Null, 0)
    ensures |Rejections(es)| == Run(Init(customPolicy), es).attemptNo
    ensures forall k :: 1 <= k < |Run(Init(customPolicy), es).calls| ==>
      Run(Init(customPolicy), es).calls[k] == Call(Rejections(es)[k - 1], k)
    ensures forall k :: 1 <= k < |Run(Init(customPolicy), es).calls| ==>
      Run(Init(customPolicy), es).calls[k] == Run(Init(customPolicy), es).decisionCalls[k - 1]
    ensures Run(Init(customPolicy), es).outcome.Rejected? ==>
      Run(Init(customPolicy), es).outcome.reason == Run(Init(customPolicy), es).error
  {
    var t := Run(Init(customPolicy), es);
    RunInv(Init(customPolicy), es);
    RunLogsRejections(Init(customPolicy), es);
    DecisionCallsForLength(Rejections(es), 0);
    forall k | 1 <= k < |t.calls| ensures t.calls[k] == Call(Rejections(es)[k - 1], k) {
      DecisionCallsForAt(Rejections(es), 0, k - 1);
    }
  }

  /** Every promise-generator call after the first was announced by exactly
      one notification with the same `[error, attemptNo]`, and a sleeping
      machine has already announced the call its timer will make. */
  lemma CallsFollowNotifications(s: State)
    requires Inv(s)
    ensures |s.notifications| == |s.calls| - (if s.phase.Sleeping? then 0 else 1)
    ensures forall k :: 1 <= k < |s.calls| ==> s.calls[k] == s.notifications[k - 1]
    ensures s.phase.Sleeping? ==>
      s.notifications[|s.notifications| - 1] == Call(s.error, s.attemptNo)
  {
  }

  /** A rejection records its value as `error` and counts one more failure
      before the decision generator is called with them; a fulfilment leaves
      both alone and resolves the outcome with the data. */
  lemma AttemptSettlementEffects(s: State, v: JsValue)
    requires Inv(s) && s.phase.AwaitingAttempt?
    ensures Step(s, AttemptRejected(v)).error == v
    ensures Step(s, AttemptRejected(v)).attemptNo == s.attemptNo + 1
    ensures Step(s, AttemptRejected(v)).decisionCalls == s.decisionCalls + [Call(v, s.attemptNo + 1)]
    ensures Step(s, AttemptFulfilled(v)).error == s.error
    ensures Step(s, AttemptFulfilled(v)).attemptNo == s.attemptNo
    ensures Step(s, AttemptFulfilled(v)).outcome == Resolved(v)
  {
  }

  /** A `decide` closure acts at most once: calling it again changes
      nothing. */
  lemma DecideIsOneShot(s: State, c: nat, d1: JsValue, d2: JsValue)
    requires 1 <= c <= |s.decideCalled|
    ensures DecideOnce(DecideOnce(s, c, d1), c, d2) == DecideOnce(s, c, d1)
  {
  }

  /** `decide(false); decide(d2)` inside the decision generator rejects with
      the attempt's error, whatever `d2` and the generator then return. */
  lemma DecideFalseThenAnything(s: State, err: JsValue, d2: JsValue, exit: GeneratorExit)
    requires Inv(s) && s.customPolicy && s.phase.AwaitingAttempt?
    ensures var es := [AttemptRejected(err), DecideCalled(s.attemptNo + 1, Bool(false)),
                       DecideCalled(s.attemptNo + 1, d2), GeneratorFinished(exit)];
      Admissible(s, es) && Run(s, es).outcome == Rejected(err)
  {
    var n := s.attemptNo + 1;
    var s1 := Step(s, AttemptRejected(err));
    var s2 := Step(s1, DecideCalled(n, Bool(false)));
    var s3 := Step(s2, DecideCalled(n, d2));
    var s4 := Step(s3, GeneratorFinished(exit));
    assert s2.outcome == Rejected(err) && s2.decideCalled[n - 1];
    assert s4 == s2.(inGenerator := false);
    RunFour(s, AttemptRejected(err), DecideCalled(n, Bool(false)), DecideCalled(n, d2), GeneratorFinished(exit));
  }

  /** A throwing decision generator that did not call `decide` rejects the
      outcome with the attempt's error, not with what it threw. */
  lemma ThrowingPolicyRejects(s: State, err: JsValue)
    requires Inv(s) && s.customPolicy && s.phase.AwaitingAttempt?
    ensures var es := [AttemptRejected(err), GeneratorFinished(Threw)];
      Admissible(s, es) && Run(s, es).outcome == Rejected(err)
  {
    var s1 := Step(s, AttemptRejected(err));
    assert Step(s1, GeneratorFinished(Threw)).outcome == Rejected(err);
    RunTwo(s, AttemptRejected(err), GeneratorFinished(Threw));
  }

  /** The default decision generator rejects on the first failure, with its
      error, after a single promise-generator call. */
  lemma DefaultPolicyRejects(err: JsValue)
    ensures Step(Init(false), AttemptRejected(err)).outcome == Rejected(err)
    ensures Step(Init(false), AttemptRejected(err)).calls == [Call(Null, 0)]
    ensures Step(Init(false), AttemptRejected(err)).notifications == []
  {
  }

  /** A decision generator that returns `undefined` without calling
      `decide` leaves the machine waiting: nothing settles, nothing is
      notified and no attempt runs until this cycle's `decide` is called. */
  lemma SilentPolicyWaits(s: State, e: Event)
    requires Inv(s) && s.phase.Deciding? && !s.inGenerator && Enabled(s, e)
    requires !(e.DecideCalled? && e.cycle == s.attemptNo)
    ensures Step(s, e) == s
  {
  }

  /** A followed thenable's value is classified again, without the one-shot
      guard; its rejection rejects with the attempt's error and drops the
      thenable's own reason. */
  lemma FollowedThenable(s: State, v: JsValue, reason: JsValue)
    requires s.phase.Following?
    ensures Step(s, FollowedFulfilled(v)) == Decide(s, v)
    ensures Step(s, FollowedFulfilled(v)).decideCalled == s.decideCalled
    ensures Step(s, FollowedRejected(reason)).outcome == Rejected(s.error)
    ensures Step(s, FollowedRejected(reason)).notifications == s.notifications
  {
  }

  /** An attempt that fails with `err`, a retry decision `d` (such as `10`
      or `true`), and a second attempt that fulfils with `data`: the outcome
      is `data`, after two generator calls and the single notification
      `[err, 1]`. */
  lemma RetryOnceThenSucceed(err: JsValue, d: JsValue, data: JsValue)
    requires !IsStopValue(d) && !d.Thenable?
    ensures var es := [AttemptRejected(err), GeneratorFinished(Returned(d)), TimerFired,
                       AttemptFulfilled(data)];
      Admissible(Init(true), es) && Run(Init(true), es).outcome == Resolved(data)
      && Run(Init(true), es).calls == [Call(Null, 0), Call(err, 1)]
      && Run(Init(true), es).notifications == [Call(err, 1)]
  {
    var s1 := Step(Init(true), AttemptRejected(err));
    var s2 := Step(s1, GeneratorFinished(Returned(d)));
    assert s2.phase == Sleeping(d) && s2.notifications == [Call(err, 1)];
    RunFour(Init(true), AttemptRejected(err), GeneratorFinished(Returned(d)), TimerFired,
            AttemptFulfilled(data));
  }

  /** Unfolds a run of two events. */
  lemma RunTwo(s: State, e1: Event, e2: Event)
    requires Enabled(s, e1) && Enabled(Step(s, e1), e2)
    ensures Admissible(s, [e1, e2]) && Run(s, [e1, e2]) == Step(Step(s, e1), e2)
  {
    assert [e1, e2][1..] == [e2];
    assert [e2][1..] == [];
    assert Run(Step(s, e1), [e2]) == Run(Step(Step(s, e1), e2), []);
  }

  /** Unfolds a run of four events. */
  lemma RunFour(s: State, e1: Event, e2: Event, e3: Event, e4: Event)
    requires Enabled(s, e1) && Enabled(Step(s, e1), e2)
    requires Enabled(Step(Step(s, e1), e2), e3)
    requires Enabled(Step(Step(Step(s, e1), e2), e3), e4)
    ensures Admissible(s, [e1, e2, e3, e4])
    ensures Run(s, [e1, e2, e3, e4]) == Step(Step(Step(Step(s, e1), e2), e3), e4)
  {
    assert [e1, e2, e3, e4][1..] == [e2, e3, e4];
    assert [e2, e3, e4][1..] == [e3, e4];
    RunTwo(Step(Step(s, e1), e2), e3, e4);
  }
}
