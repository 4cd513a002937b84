/**
 * Cirq's `Duration`: an immutable time interval held as a whole number of
 * picoseconds, with Python's operator semantics.  An operand of a binary
 * operator is a Duration, a `datetime.timedelta` (kept as its exact
 * microsecond count) or a plain number; every combination Python rejects is
 * an `Err(TypeError)`.
 */
module Durations {
  import opened Wrappers

  const PicosPerNano: int := 1000
  const PicosPerMicro: int := 1_000_000
  const MicrosPerSecond: int := 1_000_000
  const SecondsPerDay: int := 86400

  /** A time interval, `picos` picoseconds long (negative values allowed). */
  datatype Duration = Picos(picos: int) {

    function TotalPicos(): int {
      picos
    }

    /** Total picoseconds over 1000, a true (non-truncating) division, as `Duration(picos=3000).total_nanos() == 3` shows. */
    function TotalNanos(): (n: real)
      ensures n * 1000.0 == picos as real
    {
      picos as real / 1000.0
    }
  }

  /** `Duration(picos=..., nanos=...)`; both default to 0. */
  function New(picos: int := 0, nanos: int := 0): Duration {
    Picos(picos + nanos * PicosPerNano)
  }

  /** Python's `datetime.timedelta`, abstracted to its exact microsecond count. */
  datatype TimeDelta = Micros(microseconds: int)

  /** `timedelta(days=..., seconds=..., microseconds=...)` with integer arguments. */
  function MakeTimeDelta(days: int := 0, seconds: int := 0, microseconds: int := 0): TimeDelta {
    Micros((days * SecondsPerDay + seconds) * MicrosPerSecond + microseconds)
  }

  /** `Duration.create(timedelta)`: a microsecond is exactly 10^6 picoseconds. */
  function Create(t: TimeDelta): (d: Duration)
    ensures d.TotalNanos() == (t.microseconds * 1000) as real
  {
    Picos(t.microseconds * PicosPerMicro)
  }

  /** One operand of a Python binary operator. */
  datatype Operand = Dur(duration: Duration) | Delta(delta: TimeDelta) | Num(number: int)

  datatype Error = TypeError | ZeroDivisionError | FractionalPicos

  datatype Result<T> = Ok(value: T) | Err(error: Error)

  /** The operand as a Duration when it is duration-like, `None` for a plain number. */
  function AsDuration(x: Operand): (r: Option<Duration>)
    ensures r.None? <==> x.Num?
    ensures x.Dur? ==> r == Some(x.duration)
  {
    match x
    case Dur(d) => Some(d)
    case Delta(t) => Some(Create(t))
    case Num(_) => None
  }

  // ---------------------------------------------------------------------
  // Comparisons
  // ---------------------------------------------------------------------

  datatype Comparison = Lt | Le | Eq | Ne | Ge | Gt

  /** What `x op y` means on integers. */
  function Holds(op: Comparison, x: int, y: int): bool {
    match op
    case Lt => x < y
    case Le => x <= y
    case Eq => x == y
    case Ne => x != y
    case Ge => x >= y
    case Gt => x > y
  }

  /**
   * `a op b` where at least one side is a Duration.  Two duration-like
   * operands compare by picoseconds.  Against a plain number `==` and `!=`
   * fall back to Python's identity test (never equal), and the four
   * orderings raise a TypeError.
   */
  function Compare(op: Comparison, a: Operand, b: Operand): (r: Result<bool>)
    requires a.Dur? || b.Dur?
    ensures r.Err? <==> (a.Num? || b.Num?) && op != Eq && op != Ne
    ensures r.Err? ==> r.error == TypeError
    ensures (a.Num? || b.Num?) && op == Eq ==> r == Ok(false)
    ensures (a.Num? || b.Num?) && op == Ne ==> r == Ok(true)
  {
    match (AsDuration(a), AsDuration(b))
    case (Some(x), Some(y)) => Ok(Holds(op, x.picos, y.picos))
    case _ =>
      if op == Eq then Ok(false)
      else if op == Ne then Ok(true)
      else Err(TypeError)
  }

  /** Between two Durations every comparison is the integer comparison of their picoseconds. */
  lemma CompareByPicos(op: Comparison, x: Duration, y: Duration)
    ensures Compare(op, Dur(x), Dur(y)) == Ok(Holds(op, x.TotalPicos(), y.TotalPicos()))
  {
  }

  /** `==` on Durations is value equality, which is equality of total picoseconds. */
  lemma EqualityIsValue(x: Duration, y: Duration)
    ensures Compare(Eq, Dur(x), Dur(y)) == Ok(x == y)
    ensures x == y <==> x.TotalPicos() == y.TotalPicos()
  {
  }

  /** A Duration is never `==` a plain number and always `!=` it, on either side. */
  lemma NeverEqualToNumber(d: Duration, n: int)
    ensures Compare(Eq, Dur(d), Num(n)) == Ok(false) && Compare(Eq, Num(n), Dur(d)) == Ok(false)
    ensures Compare(Ne, Dur(d), Num(n)) == Ok(true) && Compare(Ne, Num(n), Dur(d)) == Ok(true)
  {
  }

  /** `<`, `<=`, `>=`, `>` against a plain number raise a TypeError, on either side. */
  lemma OrderingAgainstNumberFails(op: Comparison, d: Duration, n: int)
    requires op != Eq && op != Ne
    ensures Compare(op, Dur(d), Num(n)) == Err(TypeError)
    ensures Compare(op, Num(n), Dur(d)) == Err(TypeError)
  {
  }

  /** A timedelta compares as the Duration it converts to, on either side. */
  lemma CompareWithTimeDelta(op: Comparison, d: Duration, t: TimeDelta)
    ensures Compare(op, Dur(d), Delta(t)) == Compare(op, Dur(d), Dur(Create(t)))
    ensures Compare(op, Delta(t), Dur(d)) == Compare(op, Dur(Create(t)), Dur(d))
  {
  }

  /**
   * The six comparisons form one total order: `<` is irreflexive and
   * transitive, exactly one of `<`, `==`, `>` holds, and the other three
   * are their combinations.
   */
  lemma ComparisonsAreTotalOrder(x: Duration, y: Duration, z: Duration)
    ensures Compare(Lt, Dur(x), Dur(x)) == Ok(false)
    ensures Compare(Lt, Dur(x), Dur(y)) == Ok(true) && Compare(Lt, Dur(y), Dur(z)) == Ok(true)
            ==> Compare(Lt, Dur(x), Dur(z)) == Ok(true)
    ensures Compare(Lt, Dur(x), Dur(y)).value || Compare(Eq, Dur(x), Dur(y)).value || Compare(Gt, Dur(x), Dur(y)).value
    ensures Compare(Le, Dur(x), Dur(y)).value == (Compare(Lt, Dur(x), Dur(y)).value || x == y)
    ensures Compare(Ne, Dur(x), Dur(y)).value == !Compare(Eq, Dur(x), Dur(y)).value
    ensures Compare(Ge, Dur(x), Dur(y)).value == !Compare(Lt, Dur(x), Dur(y)).value
    ensures Compare(Gt, Dur(x), Dur(y)) == Compare(Lt, Dur(y), Dur(x))
  {
  }

  // ---------------------------------------------------------------------
  // The ordered-groups check of the comparison test
  // ---------------------------------------------------------------------

  /**
   * The six assertions made for one pair of positions `i`, `j` holding
   * `a` and `b`: each operator on the Durations agrees with it on the indices.
   */
  predicate Agrees(i: int, j: int, a: Duration, b: Duration) {
    && Compare(Lt, Dur(a), Dur(b)) == Ok(i < j)
    && Compare(Le, Dur(a), Dur(b)) == Ok(i <= j)
    && Compare(Eq, Dur(a), Dur(b)) == Ok(i == j)
    && Compare(Ne, Dur(a), Dur(b)) == Ok(i != j)
    && Compare(Ge, Dur(a), Dur(b)) == Ok(i >= j)
    && Compare(Gt, Dur(a), Dur(b)) == Ok(i > j)
  }

  /** Every pair of positions of `s` agrees. */
  ghost predicate OrderedLikeIndices(s: seq<Duration>) {
    forall i, j :: 0 <= i < |s| && 0 <= j < |s| ==> Agrees(i, j, s[i], s[j])
  }

  predicate StrictlyIncreasing(s: seq<Duration>) {
    forall k :: 0 <= k < |s| - 1 ==> s[k].picos < s[k + 1].picos
  }

  lemma {:induction false} IncreasingBetween(s: seq<Duration>, i: int, j: int)
    requires StrictlyIncreasing(s)
    requires 0 <= i < j < |s|
    ensures s[i].picos < s[j].picos
  {
    if i + 1 < j {
      IncreasingBetween(s, i, j - 1);
    }
  }

  /** The comparison check passes exactly on strictly increasing sequences of Durations. */
  lemma OrderedLikeIndicesIff(s: seq<Duration>)
    ensures OrderedLikeIndices(s) <==> StrictlyIncreasing(s)
  {
    if OrderedLikeIndices(s) {
      forall k | 0 <= k < |s| - 1
        ensures s[k].picos < s[k + 1].picos
      {
        assert Agrees(k, k + 1, s[k], s[k + 1]);
      }
    }
    if StrictlyIncreasing(s) {
      forall i, j | 0 <= i < |s| && 0 <= j < |s|
        ensures Agrees(i, j, s[i], s[j])
      {
        if i < j {
          IncreasingBetween(s, i, j);
        } else if j < i {
          IncreasingBetween(s, j, i);
        }
      }
    }
  }

  /**
   * The nested loop of the comparison test: every operator, on every pair
   * of positions, agrees with the order of the positions.
   */
  method CheckOrderedGroups(groups: seq<Duration>) returns (ok: bool)
    ensures ok <==> OrderedLikeIndices(groups)
    ensures ok <==> StrictlyIncreasing(groups)
  {
    ok := true;
    var i := 0;
    while i < |groups|
      invariant 0 <= i <= |groups|
      invariant ok <==> forall p, q :: 0 <= p < i && 0 <= q < |groups| ==> Agrees(p, q, groups[p], groups[q])
    {
      var j := 0;
      while j < |groups|
        invariant 0 <= j <= |groups|
        invariant ok <==> (forall p, q :: 0 <= p < i && 0 <= q < |groups| ==> Agrees(p, q, groups[p], groups[q]))
                          && (forall q :: 0 <= q < j ==> Agrees(i, q, groups[i], groups[q]))
      {
        var a, b := groups[i], groups[j];
        var agree := Agrees(i, j, a, b);
        ok := ok && agree;
        j := j + 1;
      }
      i := i + 1;
    }
    OrderedLikeIndicesIff(groups);
  }

  /** The five groups of the comparison test are in increasing order. */
  lemma TestGroupsAreOrdered()
    ensures StrictlyIncreasing([New(picos := -1), New(), New(picos := 1), New(nanos := 1), New(picos := 2000)])
  {
  }

  // ---------------------------------------------------------------------
  // Arithmetic
  // ---------------------------------------------------------------------

  /**
   * `a + b`: Duration + Duration, Duration + timedelta and timedelta +
   * Duration add picoseconds; a plain-number operand raises a TypeError.
   */
  function Add(a: Operand, b: Operand): (r: Result<Duration>)
    requires a.Dur? || b.Dur?
    ensures r.Ok? <==> !a.Num? && !b.Num?
    ensures r.Err? ==> r.error == TypeError
    ensures r.Ok? ==> r.value.picos == AsDuration(a).value.picos + AsDuration(b).value.picos
  {
    match (AsDuration(a), AsDuration(b))
    case (Some(x), Some(y)) => Ok(Picos(x.picos + y.picos))
    case _ => Err(TypeError)
  }

  /** `a - b`, with the same operands as `+`. */
  function Sub(a: Operand, b: Operand): (r: Result<Duration>)
    requires a.Dur? || b.Dur?
    ensures r.Ok? <==> !a.Num? && !b.Num?
    ensures r.Err? ==> r.error == TypeError
    ensures r.Ok? ==> r.value.picos + AsDuration(b).value.picos == AsDuration(a).value.picos
  {
    match (AsDuration(a), AsDuration(b))
    case (Some(x), Some(y)) => Ok(Picos(x.picos - y.picos))
    case _ => Err(TypeError)
  }

  /** `+` is commutative, whichever side the timedelta or the number is on. */
  lemma AddCommutes(a: Operand, b: Operand)
    requires a.Dur? || b.Dur?
    ensures Add(a, b) == Add(b, a)
  {
  }

  /** `+` is associative on Durations, and the zero Duration is its identity. */
  lemma AddAssociates(x: Duration, y: Duration, z: Duration)
    ensures Add(Dur(Add(Dur(x), Dur(y)).value), Dur(z)) == Add(Dur(x), Dur(Add(Dur(y), Dur(z)).value))
    ensures Add(Dur(x), Dur(New())) == Ok(x)
  {
  }

  /** Subtracting undoes adding, and adding undoes subtracting. */
  lemma SubUndoesAdd(x: Duration, b: Operand)
    requires !b.Num?
    ensures Sub(Dur(Add(Dur(x), b).value), b) == Ok(x)
    ensures Add(Dur(Sub(Dur(x), b).value), b) == Ok(x)
  {
  }

  /** `a - b` is the negation of `b - a`. */
  lemma SubAntisymmetric(a: Operand, b: Operand)
    requires a.Dur? || b.Dur?
    requires !a.Num? && !b.Num?
    ensures Sub(a, b).value.picos == -Sub(b, a).value.picos
  {
  }

  /** A timedelta on either side of `+` or `-` counts 10^6 picoseconds per microsecond. */
  lemma TimeDeltaArithmeticIsExact(d: Duration, t: TimeDelta)
    ensures Add(Dur(d), Delta(t)) == Ok(Picos(d.picos + t.microseconds * 1_000_000))
    ensures Add(Delta(t), Dur(d)) == Ok(Picos(t.microseconds * 1_000_000 + d.picos))
    ensures Sub(Dur(d), Delta(t)) == Ok(Picos(d.picos - t.microseconds * 1_000_000))
    ensures Sub(Delta(t), Dur(d)) == Ok(Picos(t.microseconds * 1_000_000 - d.picos))
  {
  }

  /** Converting timedeltas commutes with adding them. */
  lemma CreateIsAdditive(s: TimeDelta, t: TimeDelta)
    ensures Create(Micros(s.microseconds + t.microseconds)) == Add(Dur(Create(s)), Delta(t)).value
  {
  }

  /**
   * `a * b`: a Duration times a number on either side scales the
   * picoseconds; any other pairing (Duration times Duration, or times a
   * timedelta) raises a TypeError.
   */
  function Mul(a: Operand, b: Operand): (r: Result<Duration>)
    requires a.Dur? || b.Dur?
    ensures r.Ok? <==> a.Num? || b.Num?
    ensures r.Err? ==> r.error == TypeError
    ensures a.Dur? && b.Num? ==> r == Ok(Picos(a.duration.picos * b.number))
    ensures a.Num? && b.Dur? ==> r == Ok(Picos(b.duration.picos * a.number))
  {
    match (a, b)
    case (Dur(d), Num(k)) => Ok(Picos(d.picos * k))
    case (Num(k), Dur(d)) => Ok(Picos(k * d.picos))
    case _ => Err(TypeError)
  }

  /** `d * k == k * d`. */
  lemma MulCommutes(a: Operand, b: Operand)
    requires a.Dur? || b.Dur?
    ensures Mul(a, b) == Mul(b, a)
  {
  }

  /** Scaling distributes over `+`. */
  lemma MulDistributesOverAdd(x: Duration, y: Duration, k: int)
    ensures Mul(Dur(Add(Dur(x), Dur(y)).value), Num(k))
         == Add(Dur(Mul(Dur(x), Num(k)).value), Dur(Mul(Dur(y), Num(k)).value))
  {
    assert (x.picos + y.picos) * k == x.picos * k + y.picos * k;
  }

  /** What `/` returns: a Duration when dividing by a number, a plain ratio when dividing by a Duration. */
  datatype Quotient = Scaled(duration: Duration) | Ratio(ratio: real)

  /**
   * `a / b`.  Duration / number is a Duration and Duration / Duration the
   * ratio of their picoseconds; division by zero raises ZeroDivisionError;
   * number / Duration and any pairing with a timedelta raise a TypeError.
   * A Duration / number whose picoseconds are not a whole number is
   * `Err(FractionalPicos)`: their float representation is not modelled.
   */
  function Div(a: Operand, b: Operand): (r: Result<Quotient>)
    requires a.Dur? || b.Dur?
    ensures !a.Dur? || b.Delta? ==> r == Err(TypeError)
    ensures a.Dur? && b.Num? ==> (r.Ok? <==> b.number != 0 && a.duration.picos % b.number == 0)
    ensures a.Dur? && b.Num? && b.number == 0 ==> r == Err(ZeroDivisionError)
    ensures a.Dur? && b.Num? && r.Ok? ==> r.value.Scaled? && r.value.duration.picos * b.number == a.duration.picos
    ensures a.Dur? && b.Dur? ==> (r.Ok? <==> b.duration.picos != 0)
    ensures a.Dur? && b.Dur? && b.duration.picos == 0 ==> r == Err(ZeroDivisionError)
    ensures a.Dur? && b.Dur? && r.Ok? ==> r.value.Ratio? && r.value.ratio * b.duration.picos as real == a.duration.picos as real
  {
    match (a, b)
    case (Dur(d), Num(k)) =>
      if k == 0 then Err(ZeroDivisionError)
      else if d.picos % k != 0 then Err(FractionalPicos)
      else Ok(Scaled(Picos(d.picos / k)))
    case (Dur(d), Dur(e)) =>
      if e.picos == 0 then Err(ZeroDivisionError)
      else Ok(Ratio(d.picos as real / e.picos as real))
    case _ => Err(TypeError)
  }

  /** Dividing by a non-zero number undoes multiplying by it. */
  lemma DivUndoesMul(d: Duration, k: int)
    requires k != 0
    ensures Div(Dur(Mul(Dur(d), Num(k)).value), Num(k)) == Ok(Scaled(d))
  {
    DivisionOfMultiple(d.picos, k);
  }

  function Abs(x: int): int {
    if x < 0 then -x else x
  }

  lemma MulAtLeast(a: int, k: int)
    requires a != 0
    ensures Abs(a * k) >= Abs(k)
  {
  }

  /** Euclidean division of a multiple of `k` by `k` is exact. */
  lemma DivisionOfMultiple(m: int, k: int)
    requires k != 0
    ensures (m * k) % k == 0 && (m * k) / k == m
  {
    var q, r := (m * k) / k, (m * k) % k;
    assert m * k == q * k + r && 0 <= r < Abs(k);
    assert (m - q) * k == r by {
      assert (m - q) * k == m * k - q * k;
    }
    if m != q {
      MulAtLeast(m - q, k);
      assert false;
    }
  }

  /** A scaled Duration divided by the original is the scale factor. */
  lemma RatioOfScaled(d: Duration, k: int)
    requires d.picos != 0
    ensures Div(Dur(Mul(Dur(d), Num(k)).value), Dur(d)) == Ok(Ratio(k as real))
  {
    var x, c := d.picos as real, k as real;
    assert (d.picos * k) as real == x * c;
    assert x * c / x == c;
  }

  // ---------------------------------------------------------------------
  // Serialisation
  // ---------------------------------------------------------------------

  datatype Json = JString(text: string) | JInt(number: int)

  /** `_json_dict_()`: the type tag and the picosecond count. */
  function JsonDict(d: Duration): (m: map<string, Json>)
    ensures m.Keys == {"cirq_type", "picos"}
    ensures m["cirq_type"] == JString("Duration")
    ensures m["picos"] == JInt(d.TotalPicos())
  {
    map["cirq_type" := JString("Duration"), "picos" := JInt(d.picos)]
  }

  /** Reads back exactly the dictionaries `JsonDict` writes. */
  function FromJsonDict(m: map<string, Json>): Option<Duration> {
    if m.Keys == {"cirq_type", "picos"} && m["cirq_type"] == JString("Duration") && m["picos"].JInt?
    then Some(Picos(m["picos"].number))
    else None
  }

  /** The dictionary determines the Duration, and each Duration has exactly one dictionary. */
  lemma JsonRoundTrip(m: map<string, Json>, d: Duration)
    ensures FromJsonDict(JsonDict(d)) == Some(d)
    ensures FromJsonDict(m) == Some(d) <==> m == JsonDict(d)
  {
  }

  // ---------------------------------------------------------------------
  // Construction
  // ---------------------------------------------------------------------

  /**
   * `Duration(nanos=a, picos=b)` is `1000 * a + b` picoseconds, both
   * arguments default to 0, and equality is by that total, so the two
   * constructor arguments are interchangeable at 1000 picoseconds per
   * nanosecond.
   */
  lemma NewTotal(a: int, b: int)
    ensures New(nanos := a, picos := b).TotalPicos() == 1000 * a + b
    ensures New().TotalPicos() == 0 && New(picos := b).TotalPicos() == b
    ensures New(nanos := a, picos := b) == New(picos := 1000 * a + b)
    ensures New(nanos := a).TotalNanos() == a as real
  {
  }

  /** `Duration.create` of whole seconds: 10^12 picoseconds and 10^9 nanoseconds per second. */
  lemma CreateFromSeconds(s: int)
    ensures Create(MakeTimeDelta(seconds := s)).TotalPicos() == s * 1_000_000_000_000
    ensures Create(MakeTimeDelta(seconds := s)).TotalNanos() == (s * 1_000_000_000) as real
  {
  }

  // ---------------------------------------------------------------------
  // The concrete values of the tests
  // ---------------------------------------------------------------------

  lemma TestExamples()
    ensures New(nanos := 211, picos := 1051).TotalPicos() == 212051
    ensures Create(MakeTimeDelta(microseconds := 513)).TotalPicos() == 513_000_000
    ensures New(picos := 3000).TotalNanos() == 3.0
    ensures New(picos := 1000) == New(nanos := 1)
    ensures Add(Dur(New(picos := 1)), Delta(MakeTimeDelta(microseconds := 2))) == Ok(New(picos := 2000001))
    ensures Add(Delta(MakeTimeDelta(microseconds := 1)), Dur(New(picos := 2))) == Ok(New(picos := 1000002))
    ensures Sub(Dur(New(picos := 1)), Delta(MakeTimeDelta(microseconds := 2))) == Ok(New(picos := -1999999))
    ensures Sub(Delta(MakeTimeDelta(microseconds := 1)), Dur(New(picos := 2))) == Ok(New(picos := 999998))
    ensures Add(Num(1), Dur(New())) == Err(TypeError) && Sub(Dur(New()), Num(1)) == Err(TypeError)
    ensures Mul(Num(4), Dur(New(picos := 3))) == Ok(New(picos := 12))
    ensures Mul(Dur(New()), Dur(New())) == Err(TypeError)
    ensures Div(Dur(New(picos := 6)), Num(2)) == Ok(Scaled(New(picos := 3)))
    ensures Div(Dur(New(picos := 6)), Dur(New(picos := 2))) == Ok(Ratio(3.0))
    ensures Div(Num(4), Dur(New(picos := 3))) == Err(TypeError)
    ensures JsonDict(New(picos := 6)) == map["cirq_type" := JString("Duration"), "picos" := JInt(6)]
  {
  }
}
