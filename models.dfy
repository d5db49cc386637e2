/**
 * The two entities: a near-Earth object (NEO) and one close approach of an NEO to
 * Earth.  Their constructors normalise loose input (missing names, unknown
 * diameters, empty measurements); the derived labels and the dictionaries used for
 * export are pure functions of the stored fields.
 *
 * An object's `approaches` and an approach's `neo` start empty and are filled in by
 * the database when it links the two collections; that linking is not part of this
 * model, so here they are only ever the values the constructors give them.
 */
module Models {
  import opened Python

  datatype NearEarthObject = NearEarthObject(
    designation: string,
    name: Option<string>,
    diameter: Option<real>,     // None: unknown (NaN in the source)
    hazardous: bool,
    approaches: seq<CloseApproach>)

  datatype CloseApproach = CloseApproach(
    designation: string,        // the private `_designation`
    time: Option<DateTime>,
    distance: real,
    velocity: real,
    neo: Option<NearEarthObject>)

  /** `str(designation) if designation else ""`. */
  function NormalizeDesignation(v: Value, rt: Runtime): (r: string)
    ensures !Truthy(v) ==> r == ""
    ensures v.Str? ==> r == v.s
  {
    if Truthy(v) then PyStr(v, rt) else ""
  }

  /** `name if name and name.strip() else None`; `.strip()` on a non-string raises. */
  function NormalizeName(v: Value): (r: Result<Option<string>, PyError>)
    ensures !Truthy(v) ==> r == Success(None)
    ensures v.Str? && Blank(v.s) ==> r == Success(None)
    ensures v.Str? && !Blank(v.s) ==> r == Success(Some(v.s))
    ensures r.Failure? <==> Truthy(v) && !v.Str?
    ensures r.Failure? ==> r.error == AttributeError
    ensures r.Success? && r.value.Some? ==> !Blank(r.value.value)
  {
    if !Truthy(v) then Success(None)
    else match v
      case Str(s) => Success(if Blank(s) then None else Some(s))
      case _ => Failure(AttributeError)
  }

  /** `float(diameter) if diameter and str(diameter).strip() else float("nan")`. */
  function NormalizeDiameter(v: Value, rt: Runtime): (r: Result<Option<real>, PyError>)
    ensures !Truthy(v) ==> r == Success(None)
    ensures v.Str? && Blank(v.s) ==> r == Success(None)
    ensures v.Str? && !Blank(v.s) ==> (r.Success? <==> rt.parseFloat(v.s).Some?)
    ensures v.Str? && !Blank(v.s) && r.Success? ==> r.value == rt.parseFloat(v.s)
    ensures v.Num? && v.x != 0.0 && !Blank(rt.formatNumber(v.x)) ==> r == Success(Some(v.x))
    ensures v == Bool(true) ==> r == Success(Some(1.0))
    ensures r.Failure? ==> r.error == ValueError
  {
    assert v == Bool(true) ==> PyStr(v, rt)[0] == 'T';
    if Truthy(v) && !Blank(PyStr(v, rt)) then
      match PyFloat(v, rt)
      case Success(x) => Success(Some(x))
      case Failure(e) => Failure(e)
    else
      Success(None)
  }

  /** `float(x) if x else 0.0`, for an approach's distance and velocity. */
  function NormalizeMeasure(v: Value, rt: Runtime): (r: Result<real, PyError>)
    ensures !Truthy(v) ==> r == Success(0.0)
    ensures v.Num? ==> r == Success(v.x)
    ensures v.Str? && v.s != "" ==> (r.Success? <==> rt.parseFloat(v.s).Some?)
    ensures v.Str? && v.s != "" && r.Success? ==> rt.parseFloat(v.s) == Some(r.value)
    ensures r.Failure? ==> r.error == ValueError
  {
    if Truthy(v) then PyFloat(v, rt) else Success(0.0)
  }

  /** What every constructed NEO satisfies. */
  predicate Normalized(n: NearEarthObject) {
    (n.name.Some? ==> !Blank(n.name.value)) && n.approaches == []
  }

  /** `NearEarthObject(designation, name, diameter, hazardous)`. */
  function NewNearEarthObject(designation: Value, name: Value, diameter: Value, hazardous: Value,
                              rt: Runtime): (r: Result<NearEarthObject, PyError>)
    ensures r.Success? <==> NormalizeName(name).Success? && NormalizeDiameter(diameter, rt).Success?
    ensures r.Failure? ==> r.error == (if NormalizeName(name).Failure? then AttributeError else ValueError)
    ensures r.Success? ==> Normalized(r.value)
    ensures r.Success? ==> r.value.designation == NormalizeDesignation(designation, rt)
    ensures r.Success? ==> r.value.name == NormalizeName(name).value
    ensures r.Success? ==> r.value.diameter == NormalizeDiameter(diameter, rt).value
    ensures r.Success? ==> r.value.hazardous == Truthy(hazardous)
  {
    var d := NormalizeDesignation(designation, rt);
    match NormalizeName(name)
    case Failure(e) => Failure(e)
    case Success(n) =>
      match NormalizeDiameter(diameter, rt)
      case Failure(e) => Failure(e)
      case Success(dia) => Success(NearEarthObject(d, n, dia, Truthy(hazardous), []))
  }

  /** `CloseApproach(designation, time, distance, velocity)`. */
  function NewCloseApproach(designation: Value, time: Value, distance: Value, velocity: Value,
                            rt: Runtime): (r: Result<CloseApproach, PyError>)
    ensures r.Success? <==> NormalizeMeasure(distance, rt).Success? && NormalizeMeasure(velocity, rt).Success?
    ensures r.Failure? ==> r.error == ValueError
    ensures r.Success? ==> r.value.neo.None?
    ensures r.Success? ==> r.value.designation == NormalizeDesignation(designation, rt)
    ensures r.Success? ==> (r.value.time.None? <==> !Truthy(time))
    ensures r.Success? && Truthy(time) ==> r.value.time == Some(rt.cdToDatetime(time))
    ensures r.Success? ==> r.value.distance == NormalizeMeasure(distance, rt).value
    ensures r.Success? ==> r.value.velocity == NormalizeMeasure(velocity, rt).value
  {
    var d := NormalizeDesignation(designation, rt);
    var t := if Truthy(time) then Some(rt.cdToDatetime(time)) else None;
    match NormalizeMeasure(distance, rt)
    case Failure(e) => Failure(e)
    case Success(dist) =>
      match NormalizeMeasure(velocity, rt)
      case Failure(e) => Failure(e)
      case Success(vel) => Success(CloseApproach(d, t, dist, vel, None))
  }

  /** Python truthiness of the stored name. */
  predicate HasName(n: NearEarthObject) {
    n.name.Some? && n.name.value != ""
  }

  /** The `fullname` property. */
  function Fullname(n: NearEarthObject): (r: string)
    ensures |r| >= |n.designation| && r[..|n.designation|] == n.designation
    ensures r == n.designation <==> !HasName(n)
    ensures HasName(n) ==> |r| == |n.designation| + |n.name.value| + 3
                           && r[|n.designation|..|n.designation| + 2] == " ("
                           && r[|n.designation| + 2..|r| - 1] == n.name.value
                           && r[|r| - 1] == ')'
  {
    if HasName(n) then n.designation + " (" + n.name.value + ")" else n.designation
  }

  /** The `time_str` property. */
  function TimeStr(a: CloseApproach, rt: Runtime): (r: string)
    ensures a.time.None? ==> r == ""
    ensures a.time.Some? ==> r == rt.datetimeToStr(a.time.value)
  {
    match a.time
    case None => ""
    case Some(t) => rt.datetimeToStr(t)
  }

  /** The name `__str__` prints for an approach: the linked NEO's full name, else the stored designation. */
  function DisplayName(a: CloseApproach): (r: string)
    ensures a.neo.None? ==> r == a.designation
    ensures a.neo.Some? ==> r == Fullname(a.neo.value)
  {
    match a.neo
    case Some(n) => Fullname(n)
    case None => a.designation
  }

  /** The dictionary `NearEarthObject.serialize` returns; its four keys are the four fields. */
  datatype NeoRecord = NeoRecord(designation: string, name: string, diameterKm: Option<real>,
                                 potentiallyHazardous: bool)

  /** The dictionary `CloseApproach.serialize` returns. */
  datatype ApproachRecord = ApproachRecord(datetimeUtc: string, distanceAu: real, velocityKmS: real,
                                           neo: NeoRecord)

  function SerializeNeo(n: NearEarthObject): (r: NeoRecord)
    ensures r.designation == n.designation
    ensures r.name == "" <==> !HasName(n)
    ensures HasName(n) ==> r.name == n.name.value
    ensures r.diameterKm == n.diameter
    ensures r.potentiallyHazardous == n.hazardous
  {
    NeoRecord(n.designation, if HasName(n) then n.name.value else "", n.diameter, n.hazardous)
  }

  /** The record written for an approach with no linked NEO. */
  function UnlinkedNeoRecord(designation: string): NeoRecord {
    NeoRecord(designation, "", None, false)
  }

  function SerializeApproach(a: CloseApproach, rt: Runtime): (r: ApproachRecord)
    ensures r.datetimeUtc == TimeStr(a, rt)
    ensures r.distanceAu == a.distance && r.velocityKmS == a.velocity
    ensures a.neo.None? ==> r.neo == UnlinkedNeoRecord(a.designation)
    ensures a.neo.Some? ==> r.neo == SerializeNeo(a.neo.value)
  {
    ApproachRecord(TimeStr(a, rt), a.distance, a.velocity,
                   match a.neo
                   case Some(n) => SerializeNeo(n)
                   case None => UnlinkedNeoRecord(a.designation))
  }

  /** An approach straight from its constructor is shown under its own designation. */
  lemma NewApproachShowsDesignation(designation: Value, time: Value, distance: Value, velocity: Value,
                                    rt: Runtime)
    requires NewCloseApproach(designation, time, distance, velocity, rt).Success?
    ensures var a := NewCloseApproach(designation, time, distance, velocity, rt).value;
            DisplayName(a) == a.designation
            && SerializeApproach(a, rt).neo == UnlinkedNeoRecord(a.designation)
  {
  }

  /** Building an NEO again from the fields of its exported record. */
  function NeoFromRecord(rec: NeoRecord, rt: Runtime): Result<NearEarthObject, PyError> {
    NewNearEarthObject(Str(rec.designation), Str(rec.name),
                       match rec.diameterKm case None => Null case Some(x) => Num(x),
                       Bool(rec.potentiallyHazardous), rt)
  }

  /**
   * Normalisation is stable: an NEO rebuilt from its own exported record is the same
   * NEO, unless its diameter is zero (a zero number is falsy, so it reads back as unknown).
   */
  lemma NeoSurvivesReexport(designation: Value, name: Value, diameter: Value, hazardous: Value,
                            rt: Runtime)
    requires NewNearEarthObject(designation, name, diameter, hazardous, rt).Success?
    requires var n := NewNearEarthObject(designation, name, diameter, hazardous, rt).value;
             n.diameter.Some? ==> n.diameter.value != 0.0 && !Blank(rt.formatNumber(n.diameter.value))
    ensures var n := NewNearEarthObject(designation, name, diameter, hazardous, rt).value;
            NeoFromRecord(SerializeNeo(n), rt) == Success(n)
  {
  }

  /** Building an unlinked approach again from the fields of its exported record. */
  function ApproachFromRecord(rec: ApproachRecord, rt: Runtime): Result<CloseApproach, PyError> {
    NewCloseApproach(Str(rec.neo.designation), Str(rec.datetimeUtc),
                     Num(rec.distanceAu), Num(rec.velocityKmS), rt)
  }

  /**
   * A property of this model, not something the program promises or uses: nothing in
   * the modelled code reads an exported record back.  Rebuilding an unlinked approach
   * from its exported record gives the same designation, time, distance and velocity,
   * provided the two date helpers are inverse on its time (which `helpers.py`, not part
   * of this model, would have to guarantee).
   */
  lemma ApproachSurvivesReexport(designation: Value, time: Value, distance: Value, velocity: Value,
                                 rt: Runtime)
    requires NewCloseApproach(designation, time, distance, velocity, rt).Success?
    requires var a := NewCloseApproach(designation, time, distance, velocity, rt).value;
             a.time.Some? ==> rt.datetimeToStr(a.time.value) != ""
                              && rt.cdToDatetime(Str(rt.datetimeToStr(a.time.value))) == a.time.value
    ensures var a := NewCloseApproach(designation, time, distance, velocity, rt).value;
            ApproachFromRecord(SerializeApproach(a, rt), rt) == Success(a)
  {
  }
}
