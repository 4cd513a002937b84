# Cirq `Duration` and one-shot deprecation wrappers, in Dafny

This project models two small utilities of Cirq, a quantum-circuit library.
The behaviour modelled is the behaviour their unit tests pin down. The
implementations themselves are not part of this model.

- **`Duration`** (`durations.dfy`, module `Durations`). This is an
  immutable time interval held as a whole number of picoseconds. It can be
  built from `picos` and `nanos`, or from a Python `datetime.timedelta`,
  which is kept here as its exact microsecond count. It gives
  `total_picos` and `total_nanos`, and it has the six comparisons, `+`,
  `-`, `*`, `/` and a JSON dictionary. Python's operator dispatch is
  modelled with one `Operand` sum type (Duration | timedelta | number).
  Each binary operator returns a `Result`, and every operand combination
  Python rejects is `Err(TypeError)`. Division by zero is
  `Err(ZeroDivisionError)`.
- **`deprecated` / `deprecated_parameter`** (`compat.dfy`, module `Compat`).
  Each wrapper is a class with a `warned` flag and the `log` of warnings it
  has emitted. A call always delegates to the wrapped function and returns
  its result. The first qualifying call appends exactly one message, and no
  later call appends anything. Python's call arguments are modelled as
  `Args` (positional values plus a keyword map), and the binding of
  arguments to parameters follows Python's rule (`Bind`). A call that does
  not bind raises a TypeError. The wrapped functions, `match` and `rewrite`
  are the ones the tests use.

`wrappers.dfy` holds the shared `Option` type.

Several points are not pinned down by the tests. This model decides them
as follows:

- Comparing a Duration with a timedelta converts the timedelta first, as
  `+` and `-` do.
- `==` against a plain number is `false` and `!=` is `true`, because Python
  falls back to identity. The four orderings against a number raise a
  TypeError.
- `/` with a timedelta on either side is `Err(TypeError)`, although `+`,
  `-` and the comparisons treat a timedelta as duration-like.
- A binary operator is only modelled when at least one operand is a
  Duration. Otherwise it is not Duration's operator.
- Only the substrings the tests check are fixed in the warning text. The
  words around them are this model's own.
- `FromJsonDict` is this model's reader for the dictionary. It is the
  partner of `_json_dict_` in the round-trip lemma. Cirq's own JSON
  deserializer is not part of this model.

## Model

| member | source | states |
|---|---|---|
| `Durations.NewTotal` | cirq/value/duration_test.py:22-27 | `Duration(nanos=a, picos=b)` has `1000*a + b` picoseconds, both arguments default to 0, negative values are kept, and the result equals `Duration(picos=1000*a + b)` |
| `Durations.Duration.TotalNanos` | cirq/value/duration_test.py:50-53 | total nanoseconds times 1000 is exactly the total picoseconds |
| `Durations.Create` | cirq/value/duration_test.py:35-43 | `Duration.create(timedelta)` has exactly 1000 nanoseconds per microsecond of the timedelta |
| `Durations.CreateFromSeconds` | cirq/value/duration_test.py:44-47 | a timedelta of `s` seconds converts to `s*10^12` picoseconds and `s*10^9` nanoseconds |
| `Durations.EqualityIsValue` | cirq/value/duration_test.py:56-60 | `==` on Durations is value equality, which is equality of total picoseconds |
| `Durations.Compare` | cirq/value/duration_test.py:63-95 | against a plain number, `==` is false, `!=` is true, and the four orderings are exactly the TypeError cases |
| `Durations.CompareByPicos` | cirq/value/duration_test.py:72-81 | each of the six comparisons between Durations is the integer comparison of their total picoseconds |
| `Durations.ComparisonsAreTotalOrder` | cirq/value/duration_test.py:72-81 | `<` is irreflexive and transitive, exactly one of `<`, `==`, `>` holds, and `<=`, `!=`, `>=`, `>` are the matching combinations |
| `Durations.CompareWithTimeDelta` | cirq/value/duration_test.py:63-81 | a timedelta on either side compares as the Duration it converts to |
| `Durations.NeverEqualToNumber` | cirq/value/duration_test.py:83-84 | a Duration is never `==` a plain number and always `!=` it, on either side |
| `Durations.OrderingAgainstNumberFails` | cirq/value/duration_test.py:87-95 | `<`, `<=`, `>=`, `>` against a plain number raise TypeError, on either side |
| `Durations.IncreasingBetween` | cirq/value/duration_test.py:64-70 | in a sequence whose neighbours increase, every earlier element has fewer picoseconds than every later one |
| `Durations.OrderedLikeIndicesIff` | cirq/value/duration_test.py:72-81 | all six operators agree with index order on every pair of positions exactly when the sequence is strictly increasing |
| `Durations.CheckOrderedGroups` | cirq/value/duration_test.py:72-81 | the nested comparison loop succeeds exactly when every pair agrees, which is exactly when the groups strictly increase |
| `Durations.TestGroupsAreOrdered` | cirq/value/duration_test.py:64-70 | the five groups of the test are strictly increasing, so the loop succeeds on them |
| `Durations.Add` | cirq/value/duration_test.py:98-110 | `+` succeeds exactly when neither operand is a plain number, and the result's picoseconds are the sum of the operands' |
| `Durations.AddCommutes` | cirq/value/duration_test.py:102-110 | `a + b == b + a` for every operand pair, including timedelta and number operands on either side |
| `Durations.AddAssociates` | cirq/value/duration_test.py:98-100 | `+` on Durations is associative and the zero Duration is its identity |
| `Durations.Sub` | cirq/value/duration_test.py:113-125 | `-` succeeds exactly when neither operand is a plain number, and adding back the subtrahend gives the minuend |
| `Durations.SubUndoesAdd` | cirq/value/duration_test.py:113-120 | `(x + b) - b == x` and `(x - b) + b == x` for any duration-like `b` |
| `Durations.SubAntisymmetric` | cirq/value/duration_test.py:113-120 | `a - b` has the negated picoseconds of `b - a` |
| `Durations.TimeDeltaArithmeticIsExact` | cirq/value/duration_test.py:102-120 | a timedelta on either side of `+` or `-` counts exactly 10^6 picoseconds per microsecond |
| `Durations.CreateIsAdditive` | cirq/value/duration_test.py:102-105 | converting the sum of two timedeltas equals adding the second to the first's conversion |
| `Durations.Mul` | cirq/value/duration_test.py:128-133 | `*` succeeds exactly when one operand is a number, and `d*k` and `k*d` both scale the picoseconds by `k` |
| `Durations.MulCommutes` | cirq/value/duration_test.py:128-130 | `d * k == k * d` |
| `Durations.MulDistributesOverAdd` | cirq/value/duration_test.py:128-130 | scaling distributes over `+` |
| `Durations.Div` | cirq/value/duration_test.py:136-140 | `/` by a number gives a Duration that times the divisor is the dividend. `/` by a Duration gives the ratio of picoseconds. Division by zero raises ZeroDivisionError. number / Duration and any pairing with a timedelta raise TypeError |
| `Durations.DivUndoesMul` | cirq/value/duration_test.py:136-137 | dividing by a non-zero number undoes multiplying by it |
| `Durations.RatioOfScaled` | cirq/value/duration_test.py:138 | `(d * k) / d` is the ratio `k` |
| `Durations.JsonDict` | cirq/value/duration_test.py:143-145 | the dictionary has exactly the keys `cirq_type` (value `"Duration"`) and `picos` (the total picoseconds) |
| `Durations.JsonRoundTrip` | cirq/value/duration_test.py:143-145 | reading the dictionary back gives the Duration, and a dictionary reads as `d` exactly when it is `d`'s dictionary |
| `Durations.TestExamples` | cirq/value/duration_test.py:22-145 | the concrete values asserted by the tests |
| `Compat.Bind` | cirq/_compat_test.py:66-72 | a call binds exactly when positional arguments fit and keywords name exactly the parameters left over; each parameter receives its positional or keyword value |
| `Compat.AddABBinds` | cirq/_compat_test.py:38-39 | `f(a, b)` returns `a + b` whether arguments come by position or by name, and raises TypeError when one is missing |
| `Compat.RewriteDoubleCount` | cirq/_compat_test.py:62-65 | on a matching call, the positional arguments are kept and the only keyword becomes `new_count = 2 * double_count` |
| `Compat.RewriteMatchesCanonical` | cirq/_compat_test.py:62-79 | `f(double_count=n)` after the rewrite does exactly what `f(new_count=2n)` does (returns `2n`). Without the rewrite it raises TypeError. `f(n)` and `f(new_count=n)` do not match and return `n` |
| `Compat.FunctionMessage` | cirq/_compat_test.py:45-47 | the message contains `function <func_name> was used`, `will be removed in cirq <deadline>` and the fix |
| `Compat.ParameterMessage` | cirq/_compat_test.py:83-85 | the message contains `<parameter_desc> parameter of <func_name> was used`, the deadline phrase and the fix |
| `Compat.Deprecated.constructor` | cirq/_compat_test.py:37-39 | a new wrapper has not warned and has logged nothing |
| `Compat.Deprecated.Call` | cirq/_compat_test.py:41-52 | returns exactly what the wrapped function returns. It appends the one message on the first call and nothing afterwards. It keeps the invariant that the log is that one message exactly when `warned` is set |
| `Compat.DeprecatedParameter.constructor` | cirq/_compat_test.py:57-67 | a new wrapper has not warned and has logged nothing |
| `Compat.DeprecatedParameter.Call` | cirq/_compat_test.py:69-94 | a non-matching call is passed through unmodified and logs nothing. A matching call is rewritten before delegation and logs the message only if the wrapper has not warned yet. `warned` becomes set on the first matching call |
| `Compat.DeprecatedScenario` | cirq/_compat_test.py:35-52 | for any name, deadline, fix and arguments, both calls return `a + b`. The log holds exactly one message after the first call, with the three required substrings, and the second call adds nothing |
| `Compat.DeprecatedParameterScenario` | cirq/_compat_test.py:55-94 | for any names, deadline, fix and count: the usual calls return `n` and leave the log empty. Both deprecated calls return `2n`. The log holds exactly one message after the first deprecated call, with the three required substrings, and the second adds nothing |

## Left out

- Floating-point Durations (`picos=1.0`, `nanos=0.0`) and the preservation of the int/float type of `total_picos`. Picoseconds are unbounded integers here, so float rounding is not modelled.
- Float results: `total_nanos` and the ratio of `Duration / Duration` are floats in Python even for integer picoseconds. Here they are exact reals (`TotalNanos`, `Ratio`), so their rounding is not modelled.
- The hash consistency that `cirq.testing.EqualsTester` also checks for equal Durations. Datatype equality stands for `==`, and there is no hash.
- `Durations.Div`: a Duration divided by a number that does not divide its picoseconds gives `Err(FractionalPicos)`. In Python it yields a Duration with float picoseconds, which this model does not represent.
- Numbers other than integers as operands of `*` and `/` (floats, sympy symbols).
- `timedelta` internals (days/seconds/microseconds normalisation, float arguments). A timedelta is its integer microsecond count. `MakeTimeDelta` accepts integer arguments only.
- Python's `is` identity for `==`: two distinct objects of different types are never equal, and that is what the model returns. The identity of the same object is not modelled.
- `proper_repr`: it relies on `eval`, sympy and numpy dtypes, which are foreign libraries.
- `capture_logging`: it registers handlers on Python's global logging registry. Each wrapper's `log` field stands for the records captured.
- `Compat.RewriteDoubleCount`: on a call without `double_count` it returns the call unchanged, whereas the Python lambda would raise KeyError. The wrapper never applies it to such a call.
- Exceptions raised by the wrapped function other than argument-binding TypeErrors.
- Default parameter values, `*args` and `**kwargs` of wrapped functions, which `Bind` does not cover.
- The fidelity-estimation tests (`cirq/experiments/fidelity_estimation_test.py`). They use random sampling, circuit simulation and floating-point statistical tolerances, and the validation they test lives in code that is not part of this model.
