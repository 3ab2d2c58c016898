/** The upload form: turning the rows of a parsed CSV file into the records the
    dashboard visualises and stores, and tagging them with the contributing
    organisation before they are inserted. */
module Form {
  import opened Wrappers
  import opened JsText

  /** A CSV row as parsed with a header line: column name to cell text. A column the
      row lacks reads as `undefined`. */
  type CsvRow = map<string, string>

  /** `item[column]`: `None` is `undefined`. */
  function Cell(item: CsvRow, column: string): Option<string>
  {
    if column in item then Some(item[column]) else None
  }

  /** The record built for each row. Text taken from a column that may be missing is
      an `Option`; the count is what `parseInt` made of its cell. */
  datatype Record = Record(
    activity: Option<string>,
    ageRange: Option<string>,
    date: string,
    numberOfPeople: Option<int>,   // None is NaN
    postcode: Option<string>,
    typeOfInsight: Option<string>,
    location: Option<string>,
    localAuthority: string)

  // ---------------------------------------------------------------------------
  // convertDateToISO
  // ---------------------------------------------------------------------------

  /** `parts[i]` in a template literal: a missing part is written `undefined`. */
  function Part(parts: seq<string>, i: nat): string
  {
    if i < |parts| then parts[i] else "undefined"
  }

  /** `convertDateToISO`: the third, second and first `/`-separated parts, joined by
      `-`. Nothing is checked. */
  function ConvertDateToISO(dateString: string): string
  {
    var parts := Split(dateString, '/');
    Part(parts, 2) + "-" + Part(parts, 1) + "-" + Part(parts, 0)
  }

  /** A day-first date becomes year-first: the three parts in reverse order. */
  lemma ConvertDayFirst(dd: string, mm: string, yyyy: string)
    requires '/' !in dd && '/' !in mm && '/' !in yyyy
    ensures ConvertDateToISO(dd + "/" + mm + "/" + yyyy) == yyyy + "-" + mm + "-" + dd
  {
    var parts := [dd, mm, yyyy];
    assert Join(parts, '/') == dd + "/" + mm + "/" + yyyy by {
      assert Join(parts[1..], '/') == mm + "/" + yyyy by {
        assert parts[1..][1..] == [yyyy];
      }
    }
    SplitJoin(parts, '/');
  }

  /** Text without a slash is one part; the two missing parts print as `undefined`. */
  lemma ConvertWithoutSlash(s: string)
    requires '/' !in s
    ensures ConvertDateToISO(s) == "undefined-undefined-" + s
  {
    SplitNoSeparator(s, '/');
    var parts := Split(s, '/');
    assert Part(parts, 2) == "undefined" && Part(parts, 1) == "undefined" && Part(parts, 0) == s;
    assert "undefined" + "-" + "undefined" + "-" == "undefined-undefined-";
  }

  // ---------------------------------------------------------------------------
  // transformDataForSupabase
  // ---------------------------------------------------------------------------

  /** The local authority of a row: the district the postcode lookup returned, or
      `''` when the row has no postcode or the lookup failed. The lookup (a request
      to postcodes.io) is the parameter `lookup`; `None` is a failed request. */
  function LocalAuthority(item: CsvRow, lookup: Option<string>): (a: string)
    ensures Cell(item, "Postcode") == None || Cell(item, "Postcode") == Some("") ==> a == ""
    ensures lookup.None? ==> a == ""
    ensures Cell(item, "Postcode").Some? && Cell(item, "Postcode").value != "" && lookup.Some? ==> a == lookup.value
  {
    var postcode := Cell(item, "Postcode");
    if postcode.Some? && postcode.value != "" && lookup.Some? then lookup.value else ""
  }

  /** What `convertDateToISO` throws on a row without a date. */
  const NoDateError := "TypeError: Cannot read properties of undefined (reading 'split')"

  /** The record of one row. A row without a `Date` column makes `convertDateToISO`
      throw, which rejects the whole batch. */
  function TransformRow(item: CsvRow, lookup: Option<string>): (r: Result<Record>)
    ensures r.Success? <==> "Date" in item
    ensures r.Success? ==>
              r.value.activity == Cell(item, "Activity")
              && r.value.ageRange == Cell(item, "Age Range")
              && r.value.date == ConvertDateToISO(item["Date"])
              && r.value.numberOfPeople == ParseIntOpt(Cell(item, "Number of people"))
              && r.value.postcode == Cell(item, "Postcode")
              && r.value.typeOfInsight == Cell(item, "Type of insight")
              && r.value.location == Cell(item, "What approximate location does this relate to?")
              && r.value.localAuthority == LocalAuthority(item, lookup)
  {
    match Cell(item, "Date")
    case None => Failure(NoDateError)
    case Some(date) =>
      Success(Record(
        Cell(item, "Activity"),
        Cell(item, "Age Range"),
        ConvertDateToISO(date),
        ParseIntOpt(Cell(item, "Number of people")),
        Cell(item, "Postcode"),
        Cell(item, "Type of insight"),
        Cell(item, "What approximate location does this relate to?"),
        LocalAuthority(item, lookup)))
  }

  /** `transformDataForSupabase`: every row mapped on its own, in order, with the
      lookup result of that row; the batch fails when any row fails. */
  function TransformData(rows: seq<CsvRow>, lookups: seq<Option<string>>): (r: Result<seq<Record>>)
    requires |lookups| == |rows|
    ensures r.Success? <==> forall i :: 0 <= i < |rows| ==> "Date" in rows[i]
    ensures r.Success? ==>
              (|r.value| == |rows|
               && forall i :: 0 <= i < |rows| ==> r.value[i] == TransformRow(rows[i], lookups[i]).value)
    ensures r.Failure? ==> r.error == NoDateError
  {
    if forall i :: 0 <= i < |rows| ==> "Date" in rows[i] then
      Success(seq(|rows|, i requires 0 <= i < |rows| => TransformRow(rows[i], lookups[i]).value))
    else Failure(NoDateError)
  }

  /** A failed lookup only blanks the local authority of its own row: changing one
      row's lookup result leaves every other record as it was. */
  lemma LookupIsolated(rows: seq<CsvRow>, lookups: seq<Option<string>>, k: nat, other: Option<string>)
    requires |lookups| == |rows| && k < |rows|
    requires TransformData(rows, lookups).Success?
    ensures var r1, r2 := TransformData(rows, lookups), TransformData(rows, lookups[k := other]);
            r2.Success? && |r2.value| == |r1.value|
            && r2.value[k] == r1.value[k].(localAuthority := LocalAuthority(rows[k], other))
            && forall i :: 0 <= i < |rows| && i != k ==> r2.value[i] == r1.value[i]
  {
  }

  // ---------------------------------------------------------------------------
  // insertDataToSupabase
  // ---------------------------------------------------------------------------

  /** A record with the organisation it belongs to: `{ ...item, organisation_id }`. */
  datatype Tagged = Tagged(record: Record, organisationId: int)

  function TagRows(data: seq<Record>, organisationId: int): (r: seq<Tagged>)
    ensures |r| == |data|
    ensures forall i :: 0 <= i < |r| ==> r[i].record == data[i] && r[i].organisationId == organisationId
  {
    seq(|data|, i requires 0 <= i < |data| => Tagged(data[i], organisationId))
  }

  /** The rows `insertDataToSupabase` sends to the `main_data` table, or `None` when it
      gives up. The organisation id (looked up or created over the network) is the
      parameter; `None` is `null`, and `null` and `0` both stop the insert. */
  function InsertDataToSupabase(organisationId: Option<int>, data: seq<Record>): (r: Option<seq<Tagged>>)
    ensures r.None? <==> organisationId.None? || organisationId == Some(0)
    ensures r.Some? ==>
              (|r.value| == |data|
               && forall i :: 0 <= i < |data| ==> r.value[i] == Tagged(data[i], organisationId.value))
  {
    if organisationId.None? || organisationId.value == 0 then None
    else Some(TagRows(data, organisationId.value))
  }
}
