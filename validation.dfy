/**
 * The query-criteria validators: optional date and numeric bounds and an optional
 * positive limit, each either accepting its arguments or reporting one error, and
 * their composition in a fixed order.  The path checks are file-system I/O and are
 * not part of this model.
 */
module Validation {
  import opened Python

  /** A `datetime.date`; dates compare field by field, year first. */
  datatype Date = Date(year: int, month: int, day: int)

  predicate After(a: Date, b: Date) {
    a.year > b.year
    || (a.year == b.year && a.month > b.month)
    || (a.year == b.year && a.month == b.month && a.day > b.day)
  }

  /** The three bounded quantities; each has its own wording in the error text. */
  datatype Quantity = Distance | Velocity | Diameter

  /** One `ValidationError`, with the values its message reports. */
  datatype ValidationError =
    | StartAfterEnd(start: Date, end: Date)
    | MinAboveMax(quantity: Quantity, min: real, max: real)
    | NegativeMin(quantity: Quantity, min: real)
    | NegativeMax(quantity: Quantity, max: real)
    | NonPositiveLimit(limit: int)

  /** The outcome of a validator: it returns, or it raises one error. */
  datatype Check = Pass | Fail(error: ValidationError)

  /** The range every numeric validator accepts: a missing bound, or 0 <= min <= max. */
  predicate AcceptableRange(min: Option<real>, max: Option<real>) {
    min.None? || max.None? || 0.0 <= min.value <= max.value
  }

  function ValidateDateRange(start: Option<Date>, end: Option<Date>): (r: Check)
    ensures r.Fail? <==> start.Some? && end.Some? && After(start.value, end.value)
    ensures r.Fail? ==> r.error == StartAfterEnd(start.value, end.value)
    ensures start.Some? && end.Some? && start.value == end.value ==> r == Pass
  {
    // a `datetime.date` is always truthy, so only None skips the comparison
    if start.Some? && end.Some? && After(start.value, end.value) then
      Fail(StartAfterEnd(start.value, end.value))
    else
      Pass
  }

  function ValidateDistanceRange(min: Option<real>, max: Option<real>): (r: Check)
    ensures r == Pass <==> AcceptableRange(min, max)
    ensures min.None? || max.None? ==> r == Pass
    ensures min.Some? && max.Some? && min.value > max.value ==>
      r == Fail(MinAboveMax(Distance, min.value, max.value))
    ensures min.Some? && max.Some? && min.value <= max.value && min.value < 0.0 ==>
      r == Fail(NegativeMin(Distance, min.value))
    ensures !(r.Fail? && r.error.NegativeMax?)
  {
    match (min, max)
    case (Some(lo), Some(hi)) =>
      if lo > hi then Fail(MinAboveMax(Distance, lo, hi))
      else if lo < 0.0 then Fail(NegativeMin(Distance, lo))
      else if hi < 0.0 then Fail(NegativeMax(Distance, hi))
      else Pass
    case _ => Pass
  }

  function ValidateVelocityRange(min: Option<real>, max: Option<real>): (r: Check)
    ensures r == Pass <==> AcceptableRange(min, max)
    ensures min.None? || max.None? ==> r == Pass
    ensures min.Some? && max.Some? && min.value > max.value ==>
      r == Fail(MinAboveMax(Velocity, min.value, max.value))
    ensures min.Some? && max.Some? && min.value <= max.value && min.value < 0.0 ==>
      r == Fail(NegativeMin(Velocity, min.value))
    ensures !(r.Fail? && r.error.NegativeMax?)
  {
    match (min, max)
    case (Some(lo), Some(hi)) =>
      if lo > hi then Fail(MinAboveMax(Velocity, lo, hi))
      else if lo < 0.0 then Fail(NegativeMin(Velocity, lo))
      else if hi < 0.0 then Fail(NegativeMax(Velocity, hi))
      else Pass
    case _ => Pass
  }

  function ValidateDiameterRange(min: Option<real>, max: Option<real>): (r: Check)
    ensures r == Pass <==> AcceptableRange(min, max)
    ensures min.None? || max.None? ==> r == Pass
    ensures min.Some? && max.Some? && min.value > max.value ==>
      r == Fail(MinAboveMax(Diameter, min.value, max.value))
    ensures min.Some? && max.Some? && min.value <= max.value && min.value < 0.0 ==>
      r == Fail(NegativeMin(Diameter, min.value))
    ensures !(r.Fail? && r.error.NegativeMax?)
  {
    match (min, max)
    case (Some(lo), Some(hi)) =>
      if lo > hi then Fail(MinAboveMax(Diameter, lo, hi))
      else if lo < 0.0 then Fail(NegativeMin(Diameter, lo))
      else if hi < 0.0 then Fail(NegativeMax(Diameter, hi))
      else Pass
    case _ => Pass
  }

  function ValidateLimit(limit: Option<int>): (r: Check)
    ensures r == Pass <==> limit.None? || limit.value > 0
    ensures r.Fail? ==> r.error == NonPositiveLimit(limit.value)
  {
    if limit.Some? && limit.value <= 0 then Fail(NonPositiveLimit(limit.value)) else Pass
  }

  /** The same error with its quantity replaced: the three range validators differ only in that. */
  function Relabel(c: Check, q: Quantity): Check {
    match c
    case Fail(MinAboveMax(_, lo, hi)) => Fail(MinAboveMax(q, lo, hi))
    case Fail(NegativeMin(_, lo)) => Fail(NegativeMin(q, lo))
    case Fail(NegativeMax(_, hi)) => Fail(NegativeMax(q, hi))
    case _ => c
  }

  lemma RangeValidatorsAgree(min: Option<real>, max: Option<real>)
    ensures ValidateVelocityRange(min, max) == Relabel(ValidateDistanceRange(min, max), Velocity)
    ensures ValidateDiameterRange(min, max) == Relabel(ValidateDistanceRange(min, max), Diameter)
  {
  }

  /**
   * Once `min > max` and `min < 0` have both been found false, `max < 0` is false
   * too.  For bounds that are not NaN the "maximum cannot be negative" branch of the
   * three range validators is therefore never taken; their own contracts state this
   * as `!(r.Fail? && r.error.NegativeMax?)`.  A NaN minimum makes every comparison
   * false, so in Python that branch can be reached; NaN is not a value of this model.
   */
  lemma MaxNegativeUnreachable(min: real, max: real)
    requires !(min > max) && !(min < 0.0)
    ensures !(max < 0.0)
  {
  }

  /** The numeric and date criteria of a `query` command line. */
  datatype QueryArgs = QueryArgs(
    startDate: Option<Date>, endDate: Option<Date>,
    distanceMin: Option<real>, distanceMax: Option<real>,
    velocityMin: Option<real>, velocityMax: Option<real>,
    diameterMin: Option<real>, diameterMax: Option<real>,
    limit: Option<int>)

  /** The validators of `validate_query_arguments`, in the order it calls them. */
  function Checks(args: QueryArgs): seq<Check> {
    [ ValidateDateRange(args.startDate, args.endDate),
      ValidateDistanceRange(args.distanceMin, args.distanceMax),
      ValidateVelocityRange(args.velocityMin, args.velocityMax),
      ValidateDiameterRange(args.diameterMin, args.diameterMax),
      ValidateLimit(args.limit) ]
  }

  /** Each validator runs only if every earlier one returned; the first raise ends the call. */
  function ValidateQueryArguments(args: QueryArgs): (r: Check)
    ensures r == Pass <==> forall i :: 0 <= i < |Checks(args)| ==> Checks(args)[i] == Pass
    ensures r.Fail? ==> exists k :: 0 <= k < |Checks(args)| && r == Checks(args)[k]
                                    && forall j :: 0 <= j < k ==> Checks(args)[j] == Pass
  {
    var date := ValidateDateRange(args.startDate, args.endDate);
    assert Checks(args)[0] == date;
    if date.Fail? then date else
    var distance := ValidateDistanceRange(args.distanceMin, args.distanceMax);
    assert Checks(args)[1] == distance;
    if distance.Fail? then distance else
    var velocity := ValidateVelocityRange(args.velocityMin, args.velocityMax);
    assert Checks(args)[2] == velocity;
    if velocity.Fail? then velocity else
    var diameter := ValidateDiameterRange(args.diameterMin, args.diameterMax);
    assert Checks(args)[3] == diameter;
    if diameter.Fail? then diameter else
    assert Checks(args)[4] == ValidateLimit(args.limit);
    ValidateLimit(args.limit)
  }

  /** An argument set that is wrong in several ways reports its date error. */
  lemma DateErrorReportedFirst(args: QueryArgs)
    requires args.startDate.Some? && args.endDate.Some? && After(args.startDate.value, args.endDate.value)
    ensures ValidateQueryArguments(args) == Fail(StartAfterEnd(args.startDate.value, args.endDate.value))
  {
  }

  /** A limit error is reported only when every range is acceptable. */
  lemma LimitErrorReportedLast(args: QueryArgs)
    requires ValidateQueryArguments(args).Fail? && ValidateQueryArguments(args).error.NonPositiveLimit?
    ensures AcceptableRange(args.distanceMin, args.distanceMax)
    ensures AcceptableRange(args.velocityMin, args.velocityMax)
    ensures AcceptableRange(args.diameterMin, args.diameterMax)
    ensures !(args.startDate.Some? && args.endDate.Some? && After(args.startDate.value, args.endDate.value))
  {
  }
}
