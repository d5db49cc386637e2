/**
 * Turning already-parsed input rows into entities: each row of the NEO CSV file
 * (column name to cell text) becomes a `NearEarthObject`, and each row of the
 * close-approach JSON `data` array becomes a `CloseApproach`, its values taken at the
 * positions that the `fields` array gives for "des", "cd", "dist" and "v_rel".
 * Reading and parsing the files is not part of this model.
 */
module Extract {
  import opened Python
  import opened Models

  /** One row from `csv.DictReader`: column name to cell text. */
  type CsvRow = map<string, string>

  /** The four columns every NEO row must have. */
  predicate HasNeoColumns(row: CsvRow) {
    "pdes" in row && "name" in row && "diameter" in row && "pha" in row
  }

  /**
   * The NEO for one CSV row: a blank name or diameter cell is passed on as None,
   * and the hazard flag is the cell being exactly "Y".
   */
  function NeoFromRow(row: CsvRow, rt: Runtime): (r: Result<NearEarthObject, PyError>)
    ensures !HasNeoColumns(row) ==> r == Failure(KeyError)
    ensures HasNeoColumns(row) ==>
              (r.Success? <==> Blank(row["diameter"]) || rt.parseFloat(row["diameter"]).Some?)
    ensures HasNeoColumns(row) && r.Failure? ==> r.error == ValueError
    ensures r.Success? ==> Normalized(r.value)
    ensures r.Success? ==> r.value.designation == row["pdes"]
    ensures r.Success? ==> r.value.name == (if Blank(row["name"]) then None else Some(row["name"]))
    ensures r.Success? ==> r.value.diameter == (if Blank(row["diameter"]) then None else rt.parseFloat(row["diameter"]))
    ensures r.Success? ==> (r.value.hazardous <==> row["pha"] == "Y")
  {
    if !HasNeoColumns(row) then Failure(KeyError)
    else
      var name := if Blank(row["name"]) then Null else Str(row["name"]);
      var diameter := if Blank(row["diameter"]) then Null else Str(row["diameter"]);
      NewNearEarthObject(Str(row["pdes"]), name, diameter, Bool(row["pha"] == "Y"), rt)
  }

  /**
   * `load_neos`: one NEO per row, in row order; the first row that raises ends the
   * load with its exception, and no list is returned.
   */
  method LoadNeos(rows: seq<CsvRow>, rt: Runtime) returns (r: Result<seq<NearEarthObject>, PyError>)
    ensures r.Success? <==> forall i :: 0 <= i < |rows| ==> NeoFromRow(rows[i], rt).Success?
    ensures r.Success? ==> |r.value| == |rows|
    ensures r.Success? ==> forall i :: 0 <= i < |rows| ==> r.value[i] == NeoFromRow(rows[i], rt).value
    ensures r.Failure? ==> exists k :: 0 <= k < |rows| && NeoFromRow(rows[k], rt) == Failure(r.error)
                                       && forall j :: 0 <= j < k ==> NeoFromRow(rows[j], rt).Success?
  {
    var neos: seq<NearEarthObject> := [];
    var i := 0;
    while i < |rows|
      invariant 0 <= i <= |rows|
      invariant |neos| == i
      invariant forall j :: 0 <= j < i ==> NeoFromRow(rows[j], rt).Success?
      invariant forall j :: 0 <= j < i ==> neos[j] == NeoFromRow(rows[j], rt).value
    {
      match NeoFromRow(rows[i], rt) {
        case Failure(e) =>
          r := Failure(e);
          return;
        case Success(neo) =>
          neos := neos + [neo];
      }
      i := i + 1;
    }
    r := Success(neos);
  }

  /** `fields.index(x)`: the position of the first occurrence, or None where Python raises ValueError. */
  function IndexOf(fields: seq<string>, x: string): (r: Option<nat>)
    ensures r.None? <==> x !in fields
    ensures r.Some? ==> r.value < |fields| && fields[r.value] == x
    ensures r.Some? ==> forall j :: 0 <= j < r.value ==> fields[j] != x
  {
    if fields == [] then None
    else if fields[0] == x then Some(0)
    else match IndexOf(fields[1..], x)
      case None => None
      case Some(k) => Some(k + 1)
  }

  /** Where the four needed values sit in each data row. */
  datatype Columns = Columns(des: nat, cd: nat, dist: nat, vRel: nat)

  /** The four `fields.index` lookups, done before any row is read. */
  function FindColumns(fields: seq<string>): (r: Result<Columns, PyError>)
    ensures r.Success? <==> "des" in fields && "cd" in fields && "dist" in fields && "v_rel" in fields
    ensures r.Failure? ==> r.error == ValueError
    ensures r.Success? ==> IndexOf(fields, "des") == Some(r.value.des) && IndexOf(fields, "cd") == Some(r.value.cd)
                           && IndexOf(fields, "dist") == Some(r.value.dist) && IndexOf(fields, "v_rel") == Some(r.value.vRel)
  {
    match (IndexOf(fields, "des"), IndexOf(fields, "cd"), IndexOf(fields, "dist"), IndexOf(fields, "v_rel"))
    case (Some(des), Some(cd), Some(dist), Some(vRel)) => Success(Columns(des, cd, dist, vRel))
    case _ => Failure(ValueError)
  }

  /** Whether a data row is long enough for all four positions. */
  predicate Reaches(row: seq<Value>, c: Columns) {
    c.des < |row| && c.cd < |row| && c.dist < |row| && c.vRel < |row|
  }

  /** The close approach for one data row; a row too short for a position is an IndexError. */
  function ApproachFromRow(row: seq<Value>, c: Columns, rt: Runtime): (r: Result<CloseApproach, PyError>)
    ensures !Reaches(row, c) ==> r == Failure(IndexError)
    ensures Reaches(row, c) ==>
              (r.Success? <==> NormalizeMeasure(row[c.dist], rt).Success? && NormalizeMeasure(row[c.vRel], rt).Success?)
    ensures Reaches(row, c) && r.Failure? ==> r.error == ValueError
    ensures r.Success? ==> r.value.neo.None?
    ensures r.Success? ==> r.value.designation == NormalizeDesignation(row[c.des], rt)
    ensures r.Success? ==> (r.value.time.None? <==> !Truthy(row[c.cd]))
    ensures r.Success? && Truthy(row[c.cd]) ==> r.value.time == Some(rt.cdToDatetime(row[c.cd]))
    ensures r.Success? ==> r.value.distance == NormalizeMeasure(row[c.dist], rt).value
    ensures r.Success? ==> r.value.velocity == NormalizeMeasure(row[c.vRel], rt).value
  {
    if !Reaches(row, c) then Failure(IndexError)
    else NewCloseApproach(row[c.des], row[c.cd], row[c.dist], row[c.vRel], rt)
  }

  /**
   * `load_approaches`: a missing field name fails before any row is read, even with no
   * rows; otherwise one approach per data row, in order, and the first row that
   * raises ends the load with its exception.
   */
  method LoadApproaches(fields: seq<string>, data: seq<seq<Value>>, rt: Runtime)
    returns (r: Result<seq<CloseApproach>, PyError>)
    ensures FindColumns(fields).Failure? ==> r == Failure(ValueError)
    ensures FindColumns(fields).Success? ==>
              var c := FindColumns(fields).value;
              && (r.Success? <==> forall i :: 0 <= i < |data| ==> ApproachFromRow(data[i], c, rt).Success?)
              && (r.Success? ==> |r.value| == |data|
                                 && forall i :: 0 <= i < |data| ==> r.value[i] == ApproachFromRow(data[i], c, rt).value)
              && (r.Failure? ==> exists k :: 0 <= k < |data| && ApproachFromRow(data[k], c, rt) == Failure(r.error)
                                             && forall j :: 0 <= j < k ==> ApproachFromRow(data[j], c, rt).Success?)
  {
    var columns := FindColumns(fields);
    if columns.Failure? {
      r := Failure(columns.error);
      return;
    }
    var c := columns.value;
    var approaches: seq<CloseApproach> := [];
    var i := 0;
    while i < |data|
      invariant 0 <= i <= |data|
      invariant |approaches| == i
      invariant forall j :: 0 <= j < i ==> ApproachFromRow(data[j], c, rt).Success?
      invariant forall j :: 0 <= j < i ==> approaches[j] == ApproachFromRow(data[j], c, rt).value
    {
      match ApproachFromRow(data[i], c, rt) {
        case Failure(e) =>
          r := Failure(e);
          return;
        case Success(a) =>
          approaches := approaches + [a];
      }
      i := i + 1;
    }
    r := Success(approaches);
  }

  /**
   * A needed field name listed more than once is read from its first position: a
   * later column with the same name is never consulted.
   */
  lemma RepeatedFieldUsesFirst(fields: seq<string>, name: string, i: nat, j: nat)
    requires FindColumns(fields).Success?
    requires i < j < |fields| && fields[i] == name && fields[j] == name
    ensures name == "des" ==> FindColumns(fields).value.des <= i < j
    ensures name == "cd" ==> FindColumns(fields).value.cd <= i < j
    ensures name == "dist" ==> FindColumns(fields).value.dist <= i < j
    ensures name == "v_rel" ==> FindColumns(fields).value.vRel <= i < j
  {
  }
}
