/** Scalars bounded to an open interval, validated when they are built
    (bqme/variables.py). */
module Variables {
  import opened Wrappers
  import opened ExtendedReals

  /** A number as the caller passed it: its value, and the text Python's
      `str()` renders it as. The text is kept opaque because `0` and `0.0`
      compare equal but print differently. */
  datatype Number = Number(amount: ExtReal, text: string)

  /** A validated scalar: `value` lies strictly between `lower` and `upper`. */
  datatype Variable = Variable(value: Number, name: string, lower: ExtReal, upper: ExtReal)

  /** The ValueError raised by `approve`, with the facts its message cites. */
  datatype RangeError = OutOfRange(name: string, lower: ExtReal, upper: ExtReal, value: Number)

  predicate Valid(v: Variable) {
    Inside(v.value.amount, v.lower, v.upper)
  }

  /** `Variable.approve`: the value itself when it lies in (lower, upper). */
  function Approve(value: Number, name: string, lower: ExtReal, upper: ExtReal): (r: Result<Number, RangeError>)
    ensures r.Success? <==> Inside(value.amount, lower, upper)
    ensures r.Success? ==> r.value == value
    ensures r.Failure? ==> r.error == OutOfRange(name, lower, upper, value)
  {
    if Less(lower, value.amount) && Less(value.amount, upper) then Success(value)
    else Failure(OutOfRange(name, lower, upper, value))
  }

  /** `Variable(value, name, lower, upper)`: bounds and name are stored as
      given, then the value is approved. */
  function NewVariable(value: Number, name: string, lower: ExtReal, upper: ExtReal): (r: Result<Variable, RangeError>)
    ensures r.Success? <==> Inside(value.amount, lower, upper)
    ensures r.Success? ==> Valid(r.value)
    ensures r.Success? ==> r.value.value == value && r.value.name == name
                           && r.value.lower == lower && r.value.upper == upper
    ensures r.Failure? ==> r.error == OutOfRange(name, lower, upper, value)
  {
    match Approve(value, name, lower, upper)
    case Success(v) => Success(Variable(v, name, lower, upper))
    case Failure(e) => Failure(e)
  }

  /** The bounds are strict: a value equal to either bound is rejected, and an
      interval whose lower bound is not below its upper bound admits nothing. */
  lemma BoundsAreStrict(value: Number, name: string, lower: ExtReal, upper: ExtReal)
    requires value.amount == lower || value.amount == upper || !Less(lower, upper)
    ensures NewVariable(value, name, lower, upper).Failure?
  {
    if Inside(value.amount, lower, upper) {
      LessTransitive(lower, value.amount, upper);
    }
  }

  /** An infinite value is rejected whatever the bounds. */
  lemma InfiniteValueRejected(value: Number, name: string, lower: ExtReal, upper: ExtReal)
    requires !value.amount.Fin?
    ensures NewVariable(value, name, lower, upper).Failure?
  {
  }

  /** `ContinuousVariable(value, name)`: bounds (-inf, inf). */
  function ContinuousVariable(value: Number, name: string): (r: Result<Variable, RangeError>)
    ensures r.Success? <==> value.amount.Fin?
    ensures r.Success? ==> r.value == Variable(value, name, NegInf, PosInf)
    ensures r.Failure? ==> r.error == OutOfRange(name, NegInf, PosInf, value)
  {
    NewVariable(value, name, NegInf, PosInf)
  }

  /** `PositiveContinuousVariable(value, name)`: bounds (0., inf). */
  function PositiveContinuousVariable(value: Number, name: string): (r: Result<Variable, RangeError>)
    ensures r.Success? <==> value.amount.Fin? && value.amount.r > 0.0
    ensures r.Success? ==> r.value == Variable(value, name, Fin(0.0), PosInf)
    ensures r.Failure? ==> r.error == OutOfRange(name, Fin(0.0), PosInf, value)
  {
    NewVariable(value, name, Fin(0.0), PosInf)
  }

  /** A positive variable rejects zero and every negative value. */
  lemma PositiveRejectsNonPositive(x: real, text: string, name: string)
    requires x <= 0.0
    ensures PositiveContinuousVariable(Number(Fin(x), text), name).Failure?
  {
  }
}
