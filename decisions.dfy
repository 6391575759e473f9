/** JavaScript values as the retry machine sees them, and the three-way
    classification of a decision value done by `_decide` in lib/index.js. */
module Decisions {

  /** The JavaScript values the machine needs to tell apart. A value whose
      `then` property is a function is a `Thenable`, identified by `id`;
      `Other` stands for every remaining value (strings, plain objects, NaN,
      negative infinity, fractional numbers), distinguished by `tag`. */
  datatype JsValue =
    | Undefined
    | Null
    | Bool(b: bool)
    | PosInfinity
    | Num(n: int)
    | Thenable(id: nat)
    | Other(tag: nat)

  /** What a decision value makes the machine do next. */
  datatype Verdict =
    | Reject                 // reject the outcome with the last attempt's error
    | Follow(thenable: nat)  // wait for the thenable and classify what it yields
    | Retry(delay: JsValue)  // notify, then arm a timer with `delay`

  /** The four values that stop retrying: `Infinity`, `undefined`, `false`
      and `null`. */
  predicate IsStopValue(d: JsValue)
  {
    d == PosInfinity || d == Undefined || d == Bool(false) || d == Null
  }

  /** Classifies a decision: stop values reject, thenables are followed, and
      everything else, `0` and `true` included, is a retry delay. The checks
      run in the order `_decide` makes them, so a stop value is never followed. */
  function Classify(d: JsValue): (v: Verdict)
    ensures v == Reject <==> IsStopValue(d)
    ensures v.Follow? <==> d.Thenable?
    ensures v.Follow? ==> v.thenable == d.id
    ensures v.Retry? <==> !IsStopValue(d) && !d.Thenable?
    ensures v.Retry? ==> v.delay == d
  {
    if IsStopValue(d) then Reject
    else if d.Thenable? then Follow(d.id)
    else Retry(d)
  }

  /** The decisions the test suite uses: `null`, `false`, `Infinity` and
      `undefined` reject, while `true` and `10` retry with that very value as
      the delay. So does `0`, an immediate retry, although it is falsy. */
  lemma ClassifyExamples()
    ensures Classify(Null) == Reject && Classify(Bool(false)) == Reject
    ensures Classify(PosInfinity) == Reject && Classify(Undefined) == Reject
    ensures Classify(Num(0)) == Retry(Num(0))
    ensures Classify(Bool(true)) == Retry(Bool(true))
    ensures Classify(Num(10)) == Retry(Num(10))
    ensures forall id: nat :: Classify(Thenable(id)) == Follow(id)
  {
  }
}
