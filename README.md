# promise-attempt: the retry state machine

This project models `Attempt` from `lib/index.js` in Dafny. `Attempt` retries a
promise-returning operation until the operation succeeds or a decision policy
gives up. It is built from a promise generator `(error, attemptNo)` and an
optional decision generator `(error, attemptNo, decide)`, and it returns an
outcome promise. Every failed attempt starts a failure cycle with its own
one-shot `decide` closure. The decision value, whether returned synchronously
or passed to `decide`, has one of three effects:

- it rejects the outcome with the last attempt's error;
- it follows a thenable and decides on that thenable's result;
- it notifies `[error, attemptNo]` and arms a timer that runs the next attempt.

The model has three modules:

- `Decisions` (`decisions.dfy`): the JavaScript values the machine tells apart
  (`JsValue`) and `Classify`, the three-way test made by `_decide`.
- `RetryMachine` (`machine.dfy`): the whole machine as a value. It has a
  `State` record, the external `Event`s, and a transition function `Step`
  built from `RejectAttempt`, `FinishGenerator`, `DecideOnce` (the closure)
  and `Decide` (`_decide`). It also has the invariant `Inv` that every
  reachable state keeps, and lemmas about single steps and whole runs
  (`Run`).
- `Attempts` (`attempt.dfy`): the class `Attempt`. Its fields are the
  object's fields: attempt number, last error, phase, outcome, the `called`
  flag of each cycle's closure, and the logs of generator calls and
  notifications. It has one method per external event. Each method updates
  the fields in place and is proved to move the object exactly as `Step`
  does while keeping `Inv`.

The decision generator is split into events. `AttemptRejected` starts it.
`DecideCalled(cycle, d)` is a call of a cycle's closure, either during the
generator or at any later time. `GeneratorFinished` is its return or throw.
With the default generator (`noop`, which returns `false`),
`AttemptRejected` runs the whole decision at once. The outside world is
represented by the events that a well-behaved promise library can deliver
(`Enabled`), and I/O becomes the logs `calls`, `decisionCalls` and
`notifications`.

Four points of the code's behaviour are easy to miss:

- `_attempt` does not check whether the outcome is already settled. No such
  check is needed: no event changes a settled machine (`SettledIsFinal`).
- A throwing decision generator differs from one that returns `undefined`.
  A generator that returns `undefined` leaves the machine waiting. A throw
  leaves the decision at `false`, so the outcome rejects.
- `true` and every other non-stop, non-thenable value is a retry delay
  (`Classify`).
- The closure's guard is used up by the first call, even when that call
  follows a thenable. The thenable's callbacks call `_decide` directly.

## Model

| member | source | states |
|---|---|---|
| `Decisions.Classify` | lib/index.js:131-149 | `Infinity`, `undefined`, `false` and `null` reject; a value with a callable `then` (and only such a value) is followed; everything else, `0` and `true` included, is a retry whose delay is the value itself |
| `Decisions.ClassifyExamples` | test/test.attempt.js:234-297 | the decisions used by the tests are classified as those tests expect: `null`, `false`, `Infinity`, `undefined` reject, `true` and `10` retry; `0`, an immediate retry, retries too |
| `RetryMachine.Decide` | lib/index.js:131-150 | a stop value settles the outcome as rejected with the last error; a thenable becomes the followed value; any other value adds exactly one notification `[error, attemptNo]` and sleeps with that delay; neither of these touches the outcome; the counter, error, calls, guards and the running-generator flag are untouched |
| `RetryMachine.DecideOnce` | lib/index.js:173-187 | the closure of a cycle is marked used after any call; a call on a used closure leaves the state unchanged; the first call decides |
| `RetryMachine.DecideIsOneShot` | lib/index.js:180-186 | calling the same cycle's `decide` a second time has no effect |
| `RetryMachine.Init` | lib/index.js:73-86 | the state after construction satisfies the invariant, its outcome is pending and the only generator call so far is `(null, 0)` |
| `RetryMachine.Enabled` | lib/index.js:103-106 | once the outcome is settled, the only things that can still happen are a call of a `decide` closure and the return of a running decision generator: no promise callback, followed thenable or timer |
| `RetryMachine.FinishGenerator` | lib/index.js:110-119 | a throw with the closure unused decides `false`; a return of `undefined` only ends the generator; any other return goes to this cycle's `decide`; if the closure was already used, only the generator ends |
| `RetryMachine.RejectAttempt` | lib/index.js:106-120 | sets `error` to the rejection value, raises the counter by one, opens one new closure and logs the decision-generator call `(reason, attemptNo + 1)`; a custom generator leaves the machine deciding, the default one rejects with `reason` at once |
| `RetryMachine.Step` | lib/index.js:99-187 | one event never changes the policy, raises the counter by one exactly on a rejected attempt, only extends the logs, and adds a promise-generator call only when the timer fires, with `(error, attemptNo)` |
| `RetryMachine.StepInv` | lib/index.js:99-187 | every event enabled in a state that satisfies the invariant leads to a state that satisfies it |
| `RetryMachine.DecideInv` | lib/index.js:131-150 | `_decide` keeps the invariant, whether it is reached through the closure or from a followed thenable |
| `RetryMachine.DecideOnceInv` | lib/index.js:173-187 | a call of any cycle's closure keeps the invariant |
| `RetryMachine.FinishGeneratorInv` | lib/index.js:110-119 | the end of the decision generator (a return, a throw leaving `false`, or `undefined`) keeps the invariant |
| `RetryMachine.RejectAttemptInv` | lib/index.js:106-120 | a rejected attempt keeps the invariant, for the default and for a custom decision generator |
| `RetryMachine.RunInv` | lib/index.js:99-187 | every state reached by any sequence of enabled events satisfies the invariant: counter = failures = decision-generator calls, error = latest failure, a pending decision exists only in the current cycle, and a rejection carries the latest error |
| `RetryMachine.SettledIsFinal` | lib/index.js:103-105 | once resolved or rejected, no later event changes the outcome, the counter, the error, any log or any guard; a generator still running can at most return |
| `RetryMachine.RunGrowsLogs` | lib/index.js:107-108 | along any run the attempt number never decreases, the generator-call, decision-call and notification logs only grow at their end, and a used closure stays used |
| `RetryMachine.RunCountsRejections` | lib/index.js:106-108 | the attempt number rises by exactly the number of rejected attempts (never on success), and `error` is the value of the latest rejection, or unchanged if there was none |
| `RetryMachine.RunLogsRejections` | lib/index.js:106-114 | along any run, the decision generator is called once per rejected attempt, in order, with that rejection's value and the failure count |
| `RetryMachine.GeneratorArguments` | lib/index.js:75-76 | from construction, the first promise-generator call gets `(null, 0)`; call `k` gets the value of the `k`-th rejection event and `k`, the same pair the decision generator got; there are at most failures + 1 calls; a rejected outcome carries the latest error |
| `RetryMachine.CallsFollowNotifications` | lib/index.js:146-149 | every promise-generator call after the first is preceded by exactly one notification with the same `[error, attemptNo]`; while sleeping, the notification for the next call has already been sent |
| `RetryMachine.AttemptSettlementEffects` | lib/index.js:102-114 | a rejection sets `error` to its value and raises the attempt number by one before the decision generator is called with both; a fulfilment leaves both alone and resolves with the data |
| `RetryMachine.DecideFalseThenAnything` | test/test.attempt.js:332-348 | `decide(false)` followed by any other `decide` call and any generator exit rejects with the attempt's error |
| `RetryMachine.ThrowingPolicyRejects` | lib/index.js:110-119 | a decision generator that throws without calling `decide` rejects with the attempt's error, not with what was thrown |
| `RetryMachine.DefaultPolicyRejects` | lib/index.js:33-35 | with the default decision generator, the first failure rejects with its error, after one generator call and no notification |
| `RetryMachine.SilentPolicyWaits` | lib/index.js:117-119 | after a decision generator returns `undefined` without calling `decide`, no event other than that cycle's `decide` changes anything: no settlement, notification or new attempt |
| `RetryMachine.FollowedThenable` | lib/index.js:158-165 | a followed thenable's value is decided on again without the one-shot guard; its rejection rejects with the original attempt error and adds no notification |
| `RetryMachine.RetryOnceThenSucceed` | test/test.attempt.js:350-376 | a failure, any retry decision `d` (such as `10` or `true`), the timer, and a success resolve with the data after the calls `(null, 0)`, `(err, 1)` and the single notification `[err, 1]` |
| `Attempts.Attempt.constructor` | lib/index.js:66-88 | the new object is in the initial state and satisfies the invariant |
| `Attempts.Attempt.Decide` | lib/index.js:131-150 | updates the fields in place exactly as `RetryMachine.Decide` |
| `Attempts.Attempt.DecideOnce` | lib/index.js:173-187 | updates the fields in place exactly as `RetryMachine.DecideOnce` |
| `Attempts.Attempt.FinishGenerator` | lib/index.js:110-119 | updates the fields in place exactly as `RetryMachine.FinishGenerator` |
| `Attempts.Attempt.OnAttemptFulfilled` | lib/index.js:103-105 | resolves the outcome with the data, as `Step` does, and keeps the invariant |
| `Attempts.Attempt.OnAttemptRejected` | lib/index.js:106-120 | stores the error, counts the failure, opens a cycle and logs the decision-generator call, as `Step` does, and keeps the invariant |
| `Attempts.Attempt.OnDecideCalled` | lib/index.js:180-186 | a call of a cycle's closure, as `Step` does, keeping the invariant |
| `Attempts.Attempt.OnGeneratorFinished` | lib/index.js:113-119 | the decision generator's return or throw, as `Step` does, keeping the invariant |
| `Attempts.Attempt.OnFollowedFulfilled` | lib/index.js:161-162 | decides on the thenable's value, as `Step` does, keeping the invariant |
| `Attempts.Attempt.OnFollowedRejected` | lib/index.js:163-164 | rejects with the last attempt's error, as `Step` does, keeping the invariant |
| `Attempts.Attempt.OnTimerFired` | lib/index.js:147-149 | makes the next promise-generator call with `(error, attemptNo)`, as `Step` does, keeping the invariant |

## Left out

- The module wrapper for CommonJS, AMD and browser globals (lib/index.js:2-15) is module-loading plumbing.
- The promise library, `Attempt.configure` and the stub whose `then` throws before configuration (lib/index.js:22-28, 94-96) are left out. The outcome promise is the `outcome` field, and promise callbacks are events.
- The `notify || noop` fallback for promise libraries without progress callbacks (lib/index.js:83) is left out. Notifications are recorded in a log.
- Real timers and time are left out. `setTimeout` is the `Sleeping(delay)` phase plus the `TimerFired` event. The JavaScript coercion of a delay (`true` as 1 ms, negative values as the host's timer rules decide) and the wall-clock lower bound on the wait are not modelled.
- Numbers are integers, `Infinity`, or one of the `Other` values. Fractions, NaN and negative infinity are `Other` values, which retry just as the code does.
- Calling `Attempt` without `new` (lib/index.js:69-71) is constructor plumbing.
- The copy of the library at the repository root (index.js) is not part of this model. The tests load `lib/`.
- The model assumes that promises and followed thenables call back at most once, as the Promises/A+ standard requires. A thenable that called back twice would run `_decide` twice in the code.
- A promise generator that throws, or that returns something without `then`, is left out. The code would throw out of `_attempt`.
- Scheduling between different `Attempt` objects is left out. Each object handles its events one at a time.
