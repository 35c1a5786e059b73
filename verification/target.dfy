/**
 A `Target` of the project's Makefile: the wrapper its decorator puts around
 a build step keeps a call counter, a call limit and the last result, and
 past the limit either raises or hands back the stored result without
 running the step again.

 What the wrapped step does on a given call (it returns a value or raises) is
 an input: the steps themselves run subprocesses and are not modelled.
 */
module Targets {
  import opened PyRuntime

  /** The arguments of `Target(...)`, with the dataclass defaults of
      `DefaultDecl`. */
  datatype TargetDecl = TargetDecl(name: Option<string>, default: bool, callLimit: int, callLimitRaise: bool)

  /** A target once its decorator has been applied: resolved name, flags, and
      the wrapper's state `_call_counter` and `_last_result`. */
  datatype Target = Target(name: string, default: bool, callLimit: int, callLimitRaise: bool,
                           callCounter: int, lastResult: Value)

  /** `Target(name=...)` with every other field at its default. */
  function DefaultDecl(name: string): TargetDecl {
    TargetDecl(Some(name), false, 1, false)
  }

  /** `Target.__call__` applied to a function named `funcName`: the name falls
      back to the function's name, and the wrapper starts with no calls made and
      `None` stored. */
  function Bind(decl: TargetDecl, funcName: string): (t: Target)
    ensures decl.name.Some? ==> t.name == decl.name.value
    ensures decl.name.None? ==> t.name == funcName
    ensures t.default == decl.default && t.callLimit == decl.callLimit && t.callLimitRaise == decl.callLimitRaise
    ensures t.callCounter == 0 && t.lastResult == VNone
  {
    Target(if decl.name.None? then funcName else decl.name.value,
           decl.default, decl.callLimit, decl.callLimitRaise, 0, VNone)
  }

  /** The `RuntimeError` the wrapper raises past the limit. */
  function LimitReached(name: string): Exc {
    Exc(Error, "Call limit reached. Can not run '" + name + "' target.")
  }

  /** The target after one call of its wrapper, what the call yielded, and
      whether the wrapped step was executed. */
  datatype Invocation = Invocation(after: Target, result: Result<Value>, ran: bool)

  /** The declared fields of a target, which the wrapper never changes. */
  predicate SameDeclaration(a: Target, b: Target) {
    a.name == b.name && a.default == b.default && a.callLimit == b.callLimit && a.callLimitRaise == b.callLimitRaise
  }

  /** One call of the wrapper, the step yielding `step` if it runs. Below the
      limit the step runs and its outcome is passed on; only a step that
      returns is counted and stored. At the limit the step does not run, the
      state stays, and the call raises or yields the stored result. */
  function Invoke(t: Target, step: Result<Value>): (inv: Invocation)
    ensures SameDeclaration(inv.after, t)
    ensures inv.ran <==> t.callCounter < t.callLimit
    ensures inv.ran ==> inv.result == step
    ensures !inv.ran ==> inv.after == t
    ensures !inv.ran && t.callLimitRaise ==> inv.result == Err(LimitReached(t.name))
    ensures !inv.ran && !t.callLimitRaise ==> inv.result == Ok(t.lastResult)
    ensures step.Err? ==> inv.after == t
    ensures inv.ran && step.Ok? ==>
              inv.after.callCounter == t.callCounter + 1 && inv.after.lastResult == step.value
  {
    if t.callCounter >= t.callLimit then
      Invocation(t, if t.callLimitRaise then Err(LimitReached(t.name)) else Ok(t.lastResult), false)
    else
      match step
      case Err(e) => Invocation(t, step, true)
      case Ok(v) => Invocation(t.(callCounter := t.callCounter + 1, lastResult := v), step, true)
  }

  /** A sequence of wrapper calls: the final target, what each call yielded,
      how many times the step ran and how many of those runs returned. */
  datatype Trace = Trace(final: Target, results: seq<Result<Value>>, executions: nat, completions: nat)

  /** Calls the wrapper once per entry of `steps`, the entry being what the
      step would yield on that call. */
  function InvokeAll(t: Target, steps: seq<Result<Value>>): (tr: Trace)
    ensures |tr.results| == |steps|
    ensures SameDeclaration(tr.final, t)
    decreases |steps|
  {
    if steps == [] then Trace(t, [], 0, 0)
    else
      var first := Invoke(t, steps[0]);
      var rest := InvokeAll(first.after, steps[1..]);
      Trace(rest.final, [first.result] + rest.results,
            rest.executions + (if first.ran then 1 else 0),
            rest.completions + (if first.ran && steps[0].Ok? then 1 else 0))
  }

  function Max(a: int, b: int): int {
    if a < b then b else a
  }

  /** The counter counts exactly the runs that returned, and over any number of
      wrapper calls at most `call_limit` runs return, counting those before. */
  lemma {:induction false} CompletedRunsBounded(t: Target, steps: seq<Result<Value>>)
    requires t.callCounter >= 0
    ensures InvokeAll(t, steps).final.callCounter == t.callCounter + InvokeAll(t, steps).completions
    ensures InvokeAll(t, steps).final.callCounter <= Max(t.callLimit, t.callCounter)
    ensures InvokeAll(t, steps).completions <= Max(0, t.callLimit - t.callCounter)
    decreases |steps|
  {
    if steps != [] {
      CompletedRunsBounded(Invoke(t, steps[0]).after, steps[1..]);
    }
  }

  /** A fresh target whose limit is not positive never runs its step: every
      call raises or yields `None`. */
  lemma {:induction false} NonPositiveLimitNeverRuns(t: Target, steps: seq<Result<Value>>)
    requires t.callLimit <= 0 && t.callCounter == 0 && t.lastResult == VNone
    ensures InvokeAll(t, steps).executions == 0
    ensures InvokeAll(t, steps).final == t
    ensures forall k :: 0 <= k < |steps| ==>
              InvokeAll(t, steps).results[k] == (if t.callLimitRaise then Err(LimitReached(t.name)) else Ok(VNone))
  {
    if steps != [] {
      NonPositiveLimitNeverRuns(t, steps[1..]);
    }
  }

  /** A step that keeps raising is never counted, so it is run again on every
      call: the limit bounds the runs that return, not the attempts. */
  lemma {:induction false} RaisingStepRunsEveryTime(t: Target, steps: seq<Result<Value>>)
    requires t.callCounter < t.callLimit
    requires forall k :: 0 <= k < |steps| ==> steps[k].Err?
    ensures InvokeAll(t, steps).executions == |steps|
    ensures InvokeAll(t, steps).final == t
    ensures InvokeAll(t, steps).results == steps
  {
    if steps != [] {
      RaisingStepRunsEveryTime(t, steps[1..]);
    }
  }

  /** Once a target that does not raise has reached its limit, every later
      call yields the stored result without running the step again. */
  lemma {:induction false} ResultCachedAfterLimit(t: Target, steps: seq<Result<Value>>)
    requires t.callCounter >= t.callLimit && !t.callLimitRaise
    ensures InvokeAll(t, steps).executions == 0
    ensures InvokeAll(t, steps).final == t
    ensures forall k :: 0 <= k < |steps| ==> InvokeAll(t, steps).results[k] == Ok(t.lastResult)
  {
    if steps != [] {
      ResultCachedAfterLimit(t, steps[1..]);
    }
  }

  /** A fresh target with the default limit of one and no raising, whose step
      returns `v` on its first call, yields `v` on every call and runs the step
      once. */
  lemma CallOnceThenCached(t: Target, v: Value, steps: seq<Result<Value>>)
    requires t.callCounter == 0 && t.callLimit == 1 && !t.callLimitRaise
    requires |steps| > 0 && steps[0] == Ok(v)
    ensures InvokeAll(t, steps).executions == 1
    ensures forall k :: 0 <= k < |steps| ==> InvokeAll(t, steps).results[k] == Ok(v)
  {
    ResultCachedAfterLimit(Invoke(t, steps[0]).after, steps[1..]);
  }
}
