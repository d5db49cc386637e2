/**
 * Export of a stream of close approaches, to CSV (one flattened row per approach)
 * and to JSON (an array written item by item between "[\n" and "\n]").
 *
 * Each writer is a method that builds its output in an accumulator, the way the
 * source writes to a file handle, and is proved against a declarative description
 * of that output.  What a single item turns into (`serialize()`, and for JSON also
 * `json.dump`) is a parameter: it may raise, and which exceptions are caught
 * decides whether the item is skipped or ends the export.
 */
module Write {
  import opened Python
  import opened Models

  // ---------------------------------------------------------------- CSV

  /** The CSV header, in column order. */
  const Fieldnames: seq<string> := ["datetime_utc", "distance_au", "velocity_km_s",
                                    "designation", "name", "diameter_km", "potentially_hazardous"]

  /** One CSV cell before `csv.DictWriter` renders it as text. */
  datatype Cell = Text(s: string) | Number(x: real) | NotANumber | Flag(b: bool)

  /** Reading a flattened row back into the record it came from. */
  function Unflatten(row: seq<Cell>): Option<ApproachRecord> {
    if |row| != |Fieldnames| then None
    else match (row[0], row[1], row[2], row[3], row[4], row[5], row[6])
      case (Text(t), Number(dist), Number(vel), Text(des), Text(name), NotANumber, Flag(pha)) =>
        Some(ApproachRecord(t, dist, vel, NeoRecord(des, name, None, pha)))
      case (Text(t), Number(dist), Number(vel), Text(des), Text(name), Number(dia), Flag(pha)) =>
        Some(ApproachRecord(t, dist, vel, NeoRecord(des, name, Some(dia), pha)))
      case _ => None
  }

  /**
   * The row written for one serialized approach: the three top-level fields and the
   * four fields of its `neo` dictionary, in header order.  Nothing is lost: the row
   * reads back as the same record.
   */
  function Flatten(rec: ApproachRecord): (row: seq<Cell>)
    ensures |row| == |Fieldnames|
    ensures Unflatten(row) == Some(rec)
  {
    [ Text(rec.datetimeUtc), Number(rec.distanceAu), Number(rec.velocityKmS),
      Text(rec.neo.designation), Text(rec.neo.name),
      match rec.neo.diameterKm case None => NotANumber case Some(d) => Number(d),
      Flag(rec.neo.potentiallyHazardous) ]
  }

  /** The CSV writer catches these and skips the item. */
  predicate CsvSkips(e: PyError) {
    e == AttributeError || e == KeyError
  }

  /** An item whose serialization raises an exception the CSV writer does not catch. */
  predicate CsvFatal(r: Result<ApproachRecord, PyError>) {
    r.Failure? && !CsvSkips(r.error)
  }

  /** How many leading items the CSV writer gets through before an uncaught exception. */
  function CsvStop<T>(xs: seq<T>, serialize: T -> Result<ApproachRecord, PyError>): (k: nat)
    ensures k <= |xs|
    ensures forall j :: 0 <= j < k ==> !CsvFatal(serialize(xs[j]))
    ensures k < |xs| ==> CsvFatal(serialize(xs[k]))
  {
    if xs == [] || CsvFatal(serialize(xs[0])) then 0 else 1 + CsvStop(xs[1..], serialize)
  }

  /** The rows for the items that serialize, in input order; the others leave no row. */
  function Rows<T>(xs: seq<T>, serialize: T -> Result<ApproachRecord, PyError>): seq<seq<Cell>> {
    if xs == [] then []
    else Rows(xs[..|xs| - 1], serialize) +
         match serialize(xs[|xs| - 1])
         case Success(rec) => [Flatten(rec)]
         case Failure(_) => []
  }

  /** `write_to_csv`: the header, then one row per item; the header is written even for no items. */
  method WriteCsv<T>(results: seq<T>, serialize: T -> Result<ApproachRecord, PyError>)
    returns (header: seq<string>, rows: seq<seq<Cell>>, raised: Option<PyError>)
    ensures header == Fieldnames
    ensures rows == Rows(results[..CsvStop(results, serialize)], serialize)
    ensures raised.None? <==> CsvStop(results, serialize) == |results|
    ensures raised.Some? ==> raised == Some(serialize(results[CsvStop(results, serialize)]).error)
  {
    header := Fieldnames;
    rows := [];
    raised := None;
    var i := 0;
    while i < |results|
      invariant 0 <= i <= |results|
      invariant forall j :: 0 <= j < i ==> !CsvFatal(serialize(results[j]))
      invariant rows == Rows(results[..i], serialize)
    {
      assert results[..i + 1][..i] == results[..i];
      match serialize(results[i]) {
        case Success(rec) =>
          rows := rows + [Flatten(rec)];
        case Failure(e) =>
          if !CsvSkips(e) {
            CsvStopIs(results, serialize, i);
            raised := Some(e);
            return;
          }
      }
      i := i + 1;
    }
    CsvStopIs(results, serialize, i);
    assert results[..i] == results;
  }

  /** The stopping point is determined by the items before it and the item at it. */
  lemma CsvStopIs<T>(xs: seq<T>, serialize: T -> Result<ApproachRecord, PyError>, k: nat)
    requires k <= |xs|
    requires forall j :: 0 <= j < k ==> !CsvFatal(serialize(xs[j]))
    requires k < |xs| ==> CsvFatal(serialize(xs[k]))
    ensures CsvStop(xs, serialize) == k
  {
  }


  lemma {:induction false} RowsAppend<T>(a: seq<T>, b: seq<T>, serialize: T -> Result<ApproachRecord, PyError>)
    ensures Rows(a + b, serialize) == Rows(a, serialize) + Rows(b, serialize)
    decreases |b|
  {
    if b == [] {
      assert a + b == a;
    } else {
      var b' := b[..|b| - 1];
      assert (a + b)[..|a + b| - 1] == a + b';
      assert (a + b)[|a + b| - 1] == b[|b| - 1];
      RowsAppend(a, b', serialize);
    }
  }

  /** A skipped item leaves no row and does not stop the items after it. */
  lemma SkippedItemLeavesNoRow<T>(a: seq<T>, x: T, b: seq<T>, serialize: T -> Result<ApproachRecord, PyError>)
    requires serialize(x).Failure?
    ensures Rows(a + [x] + b, serialize) == Rows(a, serialize) + Rows(b, serialize)
  {
    RowsAppend(a + [x], b, serialize);
    assert (a + [x])[..|a + [x]| - 1] == a;
  }

  /** When every item serializes, there is exactly one row per item, in input order. */
  lemma {:induction false} OneRowPerItem<T>(xs: seq<T>, serialize: T -> Result<ApproachRecord, PyError>)
    requires forall i :: 0 <= i < |xs| ==> serialize(xs[i]).Success?
    ensures |Rows(xs, serialize)| == |xs|
    ensures forall i :: 0 <= i < |xs| ==> Rows(xs, serialize)[i] == Flatten(serialize(xs[i]).value)
    decreases |xs|
  {
    if xs != [] {
      var init := xs[..|xs| - 1];
      OneRowPerItem(init, serialize);
    }
  }

  /** `CloseApproach.serialize`, which never raises. */
  function SerializeAll(rt: Runtime): CloseApproach -> Result<ApproachRecord, PyError> {
    a => Success(SerializeApproach(a, rt))
  }

  /**
   * Exporting close approaches to CSV writes every approach, in order, and each row
   * reads back as that approach's serialized record.
   */
  lemma EveryApproachIsWritten(approaches: seq<CloseApproach>, rt: Runtime)
    ensures CsvStop(approaches, SerializeAll(rt)) == |approaches|
    ensures |Rows(approaches, SerializeAll(rt))| == |approaches|
    ensures forall i :: 0 <= i < |approaches| ==>
              Unflatten(Rows(approaches, SerializeAll(rt))[i]) == Some(SerializeApproach(approaches[i], rt))
  {
    OneRowPerItem(approaches, SerializeAll(rt));
  }

  // ---------------------------------------------------------------- JSON

  /** What `serialize()` followed by `json.dump` does for one item: its text, or a raise after a partial write. */
  datatype Dumped = Dumped(text: string) | Raised(partial: string, error: PyError)

  /** The JSON writers catch these and go on with the next item. */
  predicate JsonSkips(e: PyError) {
    e == AttributeError || e == TypeError
  }

  predicate JsonFatal(d: Dumped) {
    d.Raised? && !JsonSkips(d.error)
  }

  /** What reaches the file for one item. */
  function Written(d: Dumped): string {
    match d
    case Dumped(t) => t
    case Raised(p, _) => p
  }

  /** How many leading items the JSON writers get through before an uncaught exception. */
  function JsonStop<T>(xs: seq<T>, dump: T -> Dumped): (k: nat)
    ensures k <= |xs|
    ensures forall j :: 0 <= j < k ==> !JsonFatal(dump(xs[j]))
    ensures k < |xs| ==> JsonFatal(dump(xs[k]))
  {
    if xs == [] || JsonFatal(dump(xs[0])) then 0 else 1 + JsonStop(xs[1..], dump)
  }

  /** The stopping point is determined by the items before it and the item at it. */
  lemma JsonStopIs<T>(xs: seq<T>, dump: T -> Dumped, k: nat)
    requires k <= |xs|
    requires forall j :: 0 <= j < k ==> !JsonFatal(dump(xs[j]))
    requires k < |xs| ==> JsonFatal(dump(xs[k]))
    ensures JsonStop(xs, dump) == k
  {
  }

  /** `sep.join(ps)`. */
  function Join(ps: seq<string>, sep: string): string {
    if ps == [] then ""
    else if |ps| == 1 then ps[0]
    else Join(ps[..|ps| - 1], sep) + sep + ps[|ps| - 1]
  }

  lemma JoinSnoc(ps: seq<string>, s: string, sep: string)
    ensures Join(ps + [s], sep) == if ps == [] then s else Join(ps, sep) + sep + s
  {
    assert (ps + [s])[..|ps|] == ps;
  }

  /** The text each of the first n items leaves in the file, skipped items included. */
  function Pieces<T>(xs: seq<T>, n: nat, dump: T -> Dumped): (ps: seq<string>)
    requires n <= |xs|
    ensures |ps| == n
  {
    if n == 0 then [] else Pieces(xs, n - 1, dump) + [Written(dump(xs[n - 1]))]
  }

  /** The texts of those of the first n items that dumped, in input order. */
  function Successes<T>(xs: seq<T>, n: nat, dump: T -> Dumped): (ts: seq<string>)
    requires n <= |xs|
    ensures |ts| <= n
  {
    if n == 0 then []
    else Successes(xs, n - 1, dump) +
         match dump(xs[n - 1])
         case Dumped(t) => [t]
         case Raised(_, _) => []
  }

  /** The file contents, and the exception that ended the export if one did. */
  datatype JsonOutput = JsonOutput(text: string, raised: Option<PyError>)

  /**
   * The JSON file as `write_to_json` leaves it: every item reached contributes one
   * element, separated by ",\n"; the closing "\n]" is written only if no exception
   * escaped.
   */
  function JsonExport<T>(results: seq<T>, dump: T -> Dumped): JsonOutput {
    var k := JsonStop(results, dump);
    if k == |results| then JsonOutput("[\n" + Join(Pieces(results, k, dump), ",\n") + "\n]", None)
    else JsonOutput("[\n" + Join(Pieces(results, k + 1, dump), ",\n"), Some(dump(results[k]).error))
  }

  /** Writing the separator (unless first) and then one item's text extends the joined pieces by one. */
  lemma JsonStep<T>(xs: seq<T>, i: nat, dump: T -> Dumped)
    requires i < |xs|
    ensures "[\n" + Join(Pieces(xs, i, dump), ",\n") + (if i == 0 then "" else ",\n") + Written(dump(xs[i]))
            == "[\n" + Join(Pieces(xs, i + 1, dump), ",\n")
  {
    JoinSnoc(Pieces(xs, i, dump), Written(dump(xs[i])), ",\n");
  }

  /** `write_to_json`: the separator is written, and `first` cleared, before the item is serialized. */
  method WriteJson<T>(results: seq<T>, dump: T -> Dumped) returns (text: string, raised: Option<PyError>)
    ensures JsonOutput(text, raised) == JsonExport(results, dump)
  {
    text := "[\n";
    raised := None;
    var first := true;
    var i := 0;
    while i < |results|
      invariant 0 <= i <= |results|
      invariant first <==> i == 0
      invariant forall j :: 0 <= j < i ==> !JsonFatal(dump(results[j]))
      invariant text == "[\n" + Join(Pieces(results, i, dump), ",\n")
    {
      JsonStep(results, i, dump);
      if !first {
        text := text + ",\n";
      } else {
        first := false;
      }
      var d := dump(results[i]);
      text := text + Written(d);
      if JsonFatal(d) {
        JsonStopIs(results, dump, i);
        raised := Some(d.error);
        return;
      }
      i := i + 1;
    }
    JsonStopIs(results, dump, i);
    text := text + "\n]";
  }

  /**
   * `write_to_json_streaming`: the same loop with a flush after every item that
   * dumped; `flushes` counts them.
   */
  method WriteJsonStreaming<T>(results: seq<T>, dump: T -> Dumped)
    returns (text: string, raised: Option<PyError>, flushes: nat)
    ensures JsonOutput(text, raised) == JsonExport(results, dump)
    ensures flushes == |Successes(results, JsonStop(results, dump), dump)|
  {
    text := "[\n";
    raised := None;
    flushes := 0;
    var first := true;
    var i := 0;
    while i < |results|
      invariant 0 <= i <= |results|
      invariant first <==> i == 0
      invariant forall j :: 0 <= j < i ==> !JsonFatal(dump(results[j]))
      invariant flushes == |Successes(results, i, dump)|
      invariant text == "[\n" + Join(Pieces(results, i, dump), ",\n")
    {
      JsonStep(results, i, dump);
      if !first {
        text := text + ",\n";
      } else {
        first := false;
      }
      var d := dump(results[i]);
      text := text + Written(d);
      if d.Dumped? {
        flushes := flushes + 1;  // `file.flush()` after a successful `json.dump`
      }
      if JsonFatal(d) {
        JsonStopIs(results, dump, i);
        raised := Some(d.error);
        return;
      }
      i := i + 1;
    }
    JsonStopIs(results, dump, i);
    text := text + "\n]";
  }

  lemma {:induction false} PiecesAt<T>(xs: seq<T>, n: nat, dump: T -> Dumped)
    requires n <= |xs|
    ensures forall i :: 0 <= i < n ==> Pieces(xs, n, dump)[i] == Written(dump(xs[i]))
  {
    if n > 0 {
      PiecesAt(xs, n - 1, dump);
    }
  }

  /** An empty result stream gives "[\n\n]". */
  lemma EmptyExport<T>(dump: T -> Dumped)
    ensures JsonExport([], dump) == JsonOutput("[\n\n]", None)
  {
  }

  /** The summed length of some strings. */
  function TotalLength(ps: seq<string>): nat {
    if ps == [] then 0 else TotalLength(ps[..|ps| - 1]) + |ps[|ps| - 1]|
  }

  /** Joining k >= 1 texts adds exactly k - 1 separators. */
  lemma {:induction false} JoinLength(ps: seq<string>)
    requires ps != []
    ensures |Join(ps, ",\n")| == TotalLength(ps) + 2 * (|ps| - 1)
    decreases |ps|
  {
    if |ps| > 1 {
      JoinLength(ps[..|ps| - 1]);
    } else {
      assert ps[..0] == [];
    }
  }

  /**
   * When no exception escapes, the file is "[\n", one element per item - skipped
   * items included - joined by ",\n", then "\n]": k items give k - 1 separators
   * whatever happened to them.
   */
  lemma EveryItemGetsASlot<T>(results: seq<T>, dump: T -> Dumped)
    requires forall i :: 0 <= i < |results| ==> !JsonFatal(dump(results[i]))
    ensures var elems := Pieces(results, |results|, dump);
            && |elems| == |results|
            && (forall i :: 0 <= i < |results| ==> elems[i] == Written(dump(results[i])))
            && JsonExport(results, dump) == JsonOutput("[\n" + Join(elems, ",\n") + "\n]", None)
            && (results != [] ==> |JsonExport(results, dump).text| == 4 + TotalLength(elems) + 2 * (|results| - 1))
  {
    PiecesAt(results, |results|, dump);
    JsonStopIs(results, dump, |results|);
    if results != [] {
      JoinLength(Pieces(results, |results|, dump));
    }
  }

  /** When every item dumps, the elements are exactly the dumped texts, in order. */
  lemma AllDumpedFraming<T>(results: seq<T>, dump: T -> Dumped)
    requires forall i :: 0 <= i < |results| ==> dump(results[i]).Dumped?
    ensures JsonStop(results, dump) == |results|
    ensures var elems := Pieces(results, |results|, dump);
            && |elems| == |results|
            && (forall i :: 0 <= i < |results| ==> elems[i] == dump(results[i]).text)
            && JsonExport(results, dump).text == "[\n" + Join(elems, ",\n") + "\n]"
  {
    PiecesAt(results, |results|, dump);
    JsonStopIs(results, dump, |results|);
  }

  /** The first element of a JSON value written by `json.dump`. */
  predicate StartsValue(s: string) {
    s != [] && s[0] in "{[\"-0123456789tfn"
  }

  /**
   * Section 5 of RFC 8259: after the opening bracket (and whitespace) comes a value
   * or the closing bracket, never a value separator.
   */
  predicate SeparatorAfterOpen(text: string) {
    |text| >= 3 && text[..2] == "[\n" && text[2] == ','
  }

  /** Two items of which the first has no `serialize` method (AttributeError before anything is written). */
  function SkipThenObject(i: int): Dumped {
    if i == 0 then Raised("", AttributeError) else Dumped("{}")
  }

  /**
   * As written, a skipped first item still clears `first`, so the next item is
   * preceded by ",\n": the file is "[\n,\n{}\n]", which is not a JSON array.
   */
  lemma SkippedFirstItemBreaksArray()
    ensures JsonExport([0, 1], SkipThenObject) == JsonOutput("[\n,\n{}\n]", None)
    ensures SeparatorAfterOpen(JsonExport([0, 1], SkipThenObject).text)
  {
    assert [0, 1][1..] == [1];
    assert JsonStop([0, 1], SkipThenObject) == 2;
    assert Pieces([0, 1], 2, SkipThenObject) == ["", "{}"];
    JoinSnoc([""], "{}", ",\n");
    assert Join(["", "{}"], ",\n") == ",\n{}";
  }

  /** The file as it would be if separators were written only before items that dumped. */
  function JsonExportFixed<T>(results: seq<T>, dump: T -> Dumped): JsonOutput {
    var k := JsonStop(results, dump);
    if k == |results| then JsonOutput("[\n" + Join(Successes(results, k, dump), ",\n") + "\n]", None)
    else JsonOutput("[\n" + Join(Successes(results, k, dump), ",\n"), Some(dump(results[k]).error))
  }

  /**
   * The corrected writer: each item is rendered before anything is written, and the
   * separator goes out only in front of an item that rendered.
   */
  method WriteJsonFixed<T>(results: seq<T>, dump: T -> Dumped) returns (text: string, raised: Option<PyError>)
    ensures JsonOutput(text, raised) == JsonExportFixed(results, dump)
  {
    text := "[\n";
    raised := None;
    var first := true;
    var i := 0;
    while i < |results|
      invariant 0 <= i <= |results|
      invariant forall j :: 0 <= j < i ==> !JsonFatal(dump(results[j]))
      invariant first <==> Successes(results, i, dump) == []
      invariant text == "[\n" + Join(Successes(results, i, dump), ",\n")
    {
      var d := dump(results[i]);
      if JsonFatal(d) {
        JsonStopIs(results, dump, i);
        raised := Some(d.error);
        return;
      }
      match d {
        case Dumped(s) =>
          assert Successes(results, i + 1, dump) == Successes(results, i, dump) + [s];
          JoinSnoc(Successes(results, i, dump), s, ",\n");
          if !first {
            text := text + ",\n";
          } else {
            first := false;
          }
          text := text + s;
        case Raised(_, _) =>
          assert Successes(results, i + 1, dump) == Successes(results, i, dump);
      }
      i := i + 1;
    }
    JsonStopIs(results, dump, i);
    text := text + "\n]";
  }

  lemma {:induction false} JoinStartsWithFirst(ps: seq<string>)
    requires ps != []
    ensures |Join(ps, ",\n")| >= |ps[0]| && Join(ps, ",\n")[..|ps[0]|] == ps[0]
    decreases |ps|
  {
    if |ps| > 1 {
      var init := ps[..|ps| - 1];
      JoinStartsWithFirst(init);
      assert init[0] == ps[0];
    }
  }

  lemma {:induction false} SuccessesStartValues<T>(xs: seq<T>, n: nat, dump: T -> Dumped)
    requires n <= |xs|
    requires forall i :: 0 <= i < n && dump(xs[i]).Dumped? ==> StartsValue(dump(xs[i]).text)
    ensures forall t :: t in Successes(xs, n, dump) ==> StartsValue(t)
  {
    if n > 0 {
      SuccessesStartValues(xs, n - 1, dump);
    }
  }

  /** Joined elements that each start a JSON value leave no separator right after "[\n". */
  lemma NoSeparatorAfterOpen(elems: seq<string>)
    requires forall t :: t in elems ==> StartsValue(t)
    ensures !SeparatorAfterOpen("[\n" + Join(elems, ",\n") + "\n]")
  {
    var text := "[\n" + Join(elems, ",\n") + "\n]";
    if elems != [] {
      assert StartsValue(elems[0]);
      JoinStartsWithFirst(elems);
      var j := Join(elems, ",\n");
      assert j[0] == j[..|elems[0]|][0] == elems[0][0];
      assert text[2] == j[0];
    }
  }

  /**
   * The corrected writer produces a JSON array: the elements are exactly the texts of
   * the items that dumped, so when each of those starts a JSON value no separator
   * ever follows the opening bracket.
   */
  lemma FixedExportIsArray<T>(results: seq<T>, dump: T -> Dumped)
    requires forall i :: 0 <= i < |results| ==> !JsonFatal(dump(results[i]))
    requires forall i :: 0 <= i < |results| && dump(results[i]).Dumped? ==> StartsValue(dump(results[i]).text)
    ensures var elems := Successes(results, |results|, dump);
            && (forall t :: t in elems ==> StartsValue(t))
            && JsonExportFixed(results, dump) == JsonOutput("[\n" + Join(elems, ",\n") + "\n]", None)
            && !SeparatorAfterOpen(JsonExportFixed(results, dump).text)
  {
    SuccessesStartValues(results, |results|, dump);
    JsonStopIs(results, dump, |results|);
    NoSeparatorAfterOpen(Successes(results, |results|, dump));
  }

  /** On the same two items the corrected writer gives "[\n{}\n]". */
  lemma FixedSkipsCleanly()
    ensures JsonExportFixed([0, 1], SkipThenObject) == JsonOutput("[\n{}\n]", None)
  {
    assert [0, 1][1..] == [1];
    assert JsonStop([0, 1], SkipThenObject) == 2;
    assert Successes([0, 1], 2, SkipThenObject) == ["{}"];
  }
}
