/**
 * Cirq's one-shot deprecation wrappers `deprecated` and
 * `deprecated_parameter`.  A wrapper always delegates to the function it
 * wraps and returns what that function returns; on its first qualifying
 * call it logs one warning naming the function, the deadline and the fix,
 * and it never logs again.
 */
module Compat {
  import opened Wrappers

  /** The arguments of one Python call: positional values, and keyword values by name. */
  datatype Args = Args(positional: seq<int>, keywords: map<string, int>)

  /**
   * What a call of a wrapped function does: return a value, or raise a
   * TypeError because its arguments do not bind to the parameters.
   */
  datatype Outcome = Returned(value: int) | TypeError

  /**
   * Python's binding rule for a function without defaults: positional
   * arguments fill the first parameters, keywords may name only the
   * parameters left over, and every left-over parameter must be named.
   */
  predicate BindsTo(params: seq<string>, call: Args) {
    && |call.positional| <= |params|
    && (forall name :: name in call.keywords ==> name in params[|call.positional|..])
    && (forall i :: |call.positional| <= i < |params| ==> params[i] in call.keywords)
  }

  /** The value each parameter receives, or `None` when the call raises a TypeError. */
  function Bind(params: seq<string>, call: Args): (r: Option<seq<int>>)
    ensures r.Some? <==> BindsTo(params, call)
    ensures r.Some? ==> |r.value| == |params|
    ensures r.Some? ==> forall i :: 0 <= i < |call.positional| ==> r.value[i] == call.positional[i]
    ensures r.Some? ==> forall i :: |call.positional| <= i < |params| ==> r.value[i] == call.keywords[params[i]]
  {
    if BindsTo(params, call) then
      var n := |call.positional|;
      Some(call.positional + seq(|params| - n, k requires 0 <= k < |params| - n => call.keywords[params[n + k]]))
    else
      None
  }

  /** The function of the whole-function test: `def f(a, b): return a + b`. */
  function AddAB(call: Args): Outcome {
    match Bind(["a", "b"], call)
    case Some(v) => Returned(v[0] + v[1])
    case None => TypeError
  }

  /** The function of the parameter test: `def f(new_count): return new_count`. */
  function NewCount(call: Args): Outcome {
    match Bind(["new_count"], call)
    case Some(v) => Returned(v[0])
    case None => TypeError
  }

  /** The parameter test's `match`: the deprecated keyword `double_count` is present. */
  predicate UsesDoubleCount(call: Args) {
    "double_count" in call.keywords
  }

  /**
   * The parameter test's `rewrite`: keep the positional arguments and
   * replace the keywords by `new_count` set to twice `double_count`.  It is
   * applied only where `UsesDoubleCount` holds; elsewhere it changes nothing.
   */
  function RewriteDoubleCount(call: Args): (r: Args)
    ensures UsesDoubleCount(call) ==> r.positional == call.positional && r.keywords.Keys == {"new_count"}
    ensures UsesDoubleCount(call) ==> r.keywords["new_count"] == 2 * call.keywords["double_count"]
    ensures !UsesDoubleCount(call) ==> r == call
  {
    if UsesDoubleCount(call) then
      Args(call.positional, map["new_count" := call.keywords["double_count"] * 2])
    else
      call
  }

  // ---------------------------------------------------------------------
  // Messages
  // ---------------------------------------------------------------------

  /** `part` occurs somewhere in `text`. */
  predicate Contains(text: string, part: string) {
    part <= text || (|text| > 0 && Contains(text[1..], part))
  }

  lemma {:induction false} ContainsMiddle(before: string, part: string, after: string)
    ensures Contains(before + part + after, part)
  {
    if before == [] {
      assert before + part + after == part + after;
    } else {
      ContainsMiddle(before[1..], part, after);
      assert (before + part + after)[1..] == before[1..] + part + after;
    }
  }

  /** The warning of `deprecated`: names the function, the deadline and the fix. */
  function FunctionMessage(funcName: string, deadline: string, fix: string): (m: string)
    ensures Contains(m, "function " + funcName + " was used")
    ensures Contains(m, "will be removed in cirq " + deadline)
    ensures Contains(m, fix)
  {
    var used, removed := "function " + funcName + " was used", "will be removed in cirq " + deadline;
    var m := "The " + used + " but is deprecated.\nIt " + removed + ".\n" + fix + "\n";
    var head, tail := "The ", " but is deprecated.\nIt ";
    ContainsMiddle(head, used, tail + removed + ".\n" + fix + "\n");
    assert m == head + used + (tail + removed + ".\n" + fix + "\n");
    ContainsMiddle(head + used + tail, removed, ".\n" + fix + "\n");
    assert m == head + used + tail + removed + (".\n" + fix + "\n");
    ContainsMiddle(head + used + tail + removed + ".\n", fix, "\n");
    m
  }

  /** The warning of `deprecated_parameter`: also names the parameter. */
  function ParameterMessage(parameterDesc: string, funcName: string, deadline: string, fix: string): (m: string)
    ensures Contains(m, parameterDesc + " parameter of " + funcName + " was used")
    ensures Contains(m, "will be removed in cirq " + deadline)
    ensures Contains(m, fix)
  {
    var used, removed := parameterDesc + " parameter of " + funcName + " was used", "will be removed in cirq " + deadline;
    var m := "The " + used + " but is deprecated.\nIt " + removed + ".\n" + fix + "\n";
    var head, tail := "The ", " but is deprecated.\nIt ";
    ContainsMiddle(head, used, tail + removed + ".\n" + fix + "\n");
    assert m == head + used + (tail + removed + ".\n" + fix + "\n");
    ContainsMiddle(head + used + tail, removed, ".\n" + fix + "\n");
    assert m == head + used + tail + removed + (".\n" + fix + "\n");
    ContainsMiddle(head + used + tail + removed + ".\n", fix, "\n");
    m
  }

  // ---------------------------------------------------------------------
  // The wrappers
  // ---------------------------------------------------------------------

  /** `@deprecated(deadline=..., fix=..., func_name=...)` applied to `func`. */
  class Deprecated {
    const deadline: string
    const fix: string
    const funcName: string
    const func: Args -> Outcome
    /** Whether the warning has been given. */
    var warned: bool
    /** The warnings this wrapper has logged, oldest first. */
    var log: seq<string>

    /** The wrapper has logged its one warning exactly when it has warned. */
    ghost predicate Valid()
      reads this
    {
      log == if warned then [FunctionMessage(funcName, deadline, fix)] else []
    }

    constructor (deadline: string, fix: string, funcName: string, func: Args -> Outcome)
      ensures Valid()
      ensures this.deadline == deadline && this.fix == fix && this.funcName == funcName && this.func == func
      ensures !warned && log == []
    {
      this.deadline, this.fix, this.funcName, this.func := deadline, fix, funcName, func;
      warned, log := false, [];
    }

    /** A call: warn if this is the first one, then delegate. */
    method Call(call: Args) returns (r: Outcome)
      requires Valid()
      modifies this
      ensures Valid() && warned
      ensures r == func(call)
      ensures log == old(log) + if old(warned) then [] else [FunctionMessage(funcName, deadline, fix)]
    {
      if !warned {
        warned := true;
        log := log + [FunctionMessage(funcName, deadline, fix)];
      }
      r := func(call);
    }
  }

  /**
   * `@deprecated_parameter(deadline=..., fix=..., func_name=...,
   * parameter_desc=..., match=..., rewrite=...)` applied to `func`.
   */
  class DeprecatedParameter {
    const deadline: string
    const fix: string
    const funcName: string
    const parameterDesc: string
    const matches: Args -> bool
    const rewrite: Args -> Args
    const func: Args -> Outcome
    var warned: bool
    var log: seq<string>

    ghost predicate Valid()
      reads this
    {
      log == if warned then [ParameterMessage(parameterDesc, funcName, deadline, fix)] else []
    }

    constructor (deadline: string, fix: string, funcName: string, parameterDesc: string,
                 matches: Args -> bool, rewrite: Args -> Args, func: Args -> Outcome)
      ensures Valid()
      ensures this.deadline == deadline && this.fix == fix && this.funcName == funcName
      ensures this.parameterDesc == parameterDesc && this.matches == matches
      ensures this.rewrite == rewrite && this.func == func
      ensures !warned && log == []
    {
      this.deadline, this.fix, this.funcName, this.parameterDesc := deadline, fix, funcName, parameterDesc;
      this.matches, this.rewrite, this.func := matches, rewrite, func;
      warned, log := false, [];
    }

    /**
     * A call: when the deprecated usage matches, rewrite the arguments and
     * warn if this is the first such call; then delegate.
     */
    method Call(call: Args) returns (r: Outcome)
      requires Valid()
      modifies this
      ensures Valid()
      ensures r == func(if matches(call) then rewrite(call) else call)
      ensures warned == (old(warned) || matches(call))
      ensures log == old(log) + if matches(call) && !old(warned) then [ParameterMessage(parameterDesc, funcName, deadline, fix)] else []
    {
      var args := call;
      if matches(call) {
        args := rewrite(call);
        if !warned {
          warned := true;
          log := log + [ParameterMessage(parameterDesc, funcName, deadline, fix)];
        }
      }
      r := func(args);
    }
  }

  // ---------------------------------------------------------------------
  // Properties of the test's functions
  // ---------------------------------------------------------------------

  /** `f(a, b)` returns `a + b` whether its arguments are given by position or by name. */
  lemma AddABBinds(a: int, b: int)
    ensures AddAB(Args([a, b], map[])) == Returned(a + b)
    ensures AddAB(Args([a], map["b" := b])) == Returned(a + b)
    ensures AddAB(Args([], map["a" := a, "b" := b])) == Returned(a + b)
    ensures AddAB(Args([a], map[])) == TypeError
  {
  }

  /**
   * The rewrite makes a deprecated call `f(double_count=n)` do exactly what
   * the canonical call `f(new_count=2 * n)` does, which without the rewrite
   * would raise a TypeError; usual calls `f(n)`, `f(new_count=n)` do not match.
   */
  lemma RewriteMatchesCanonical(n: int)
    ensures UsesDoubleCount(Args([], map["double_count" := n]))
    ensures NewCount(RewriteDoubleCount(Args([], map["double_count" := n])))
         == NewCount(Args([], map["new_count" := 2 * n]))
         == Returned(2 * n)
    ensures NewCount(Args([], map["double_count" := n])) == TypeError
    ensures !UsesDoubleCount(Args([n], map[])) && NewCount(Args([n], map[])) == Returned(n)
    ensures !UsesDoubleCount(Args([], map["new_count" := n])) && NewCount(Args([], map["new_count" := n])) == Returned(n)
  {
  }

  // ---------------------------------------------------------------------
  // The two test scenarios, replayed against the contracts above
  // ---------------------------------------------------------------------

  /**
   * The whole-function test, for any names and arguments: both calls of
   * `f(a, b)` return `a + b`; the log holds one warning after the first
   * call, and the second call adds nothing to it.
   */
  method DeprecatedScenario(funcName: string, deadline: string, fix: string, a: int, b: int)
    returns (first: Outcome, second: Outcome, afterFirst: seq<string>, logged: seq<string>)
    ensures first == second == Returned(a + b)
    ensures |afterFirst| == 1 && logged == afterFirst
    ensures Contains(afterFirst[0], "function " + funcName + " was used")
    ensures Contains(afterFirst[0], "will be removed in cirq " + deadline)
    ensures Contains(afterFirst[0], fix)
  {
    var f := new Deprecated(deadline, fix, funcName, AddAB);
    AddABBinds(a, b);
    first := f.Call(Args([a, b], map[]));
    afterFirst := f.log;
    second := f.Call(Args([a, b], map[]));
    logged := f.log;
  }

  /**
   * The parameter test, for any names and count: the usual calls `f(n)`
   * and `f(new_count=n)` return `n` and leave the log empty; the first
   * `f(double_count=n)` returns `2 * n` and logs one warning; a second one
   * returns `2 * n` and adds nothing to the log.
   */
  method DeprecatedParameterScenario(funcName: string, parameterDesc: string, deadline: string, fix: string, n: int)
    returns (usual: seq<Outcome>, deprecated: seq<Outcome>,
             afterUsual: seq<string>, afterFirst: seq<string>, logged: seq<string>)
    ensures usual == [Returned(n), Returned(n)]
    ensures deprecated == [Returned(2 * n), Returned(2 * n)]
    ensures afterUsual == []
    ensures |afterFirst| == 1 && logged == afterFirst
    ensures Contains(afterFirst[0], parameterDesc + " parameter of " + funcName + " was used")
    ensures Contains(afterFirst[0], "will be removed in cirq " + deadline)
    ensures Contains(afterFirst[0], fix)
  {
    var f := new DeprecatedParameter(deadline, fix, funcName, parameterDesc,
                                     UsesDoubleCount, RewriteDoubleCount, NewCount);
    RewriteMatchesCanonical(n);
    var a := f.Call(Args([n], map[]));
    var b := f.Call(Args([], map["new_count" := n]));
    usual := [a, b];
    afterUsual := f.log;
    var c := f.Call(Args([], map["double_count" := n]));
    afterFirst := f.log;
    var d := f.Call(Args([], map["double_count" := n]));
    deprecated := [c, d];
    logged := f.log;
  }
}
