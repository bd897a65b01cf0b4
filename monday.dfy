/**
 * The column-value codec of monday.go: builders that turn plain values into
 * the vendor's payload records, `DecodeValue`, which turns a cell's raw JSON
 * into a string or a list of strings according to its column's type tag, the
 * two list decoders, and the loop of `CreateColumnMap` that indexes a board's
 * columns by id.
 */
module Monday {

  import opened Wrappers
  import opened Strconv
  import opened Definitions
  import opened Json

  // ---------------------------------------------------------------------
  // Builders
  // ---------------------------------------------------------------------

  function BuildDateTime(date: string, time: string): DateTime {
    DateTime(date, time)
  }

  /** A date without a time of day. */
  function BuildDate(date: string): (r: DateTime)
    ensures r == BuildDateTime(date, "")
  {
    DateTime(date, "")
  }

  function BuildStatusIndex(index: GoInt): StatusIndex {
    StatusIndex(index)
  }

  function BuildCheckbox(checked: string): Checkbox {
    Checkbox(checked)
  }

  /** The people record that assigns the users `userIds`, in order. */
  function PeopleFor(userIds: seq<GoInt>): People {
    People(seq(|userIds|, i requires 0 <= i < |userIds| => PersonTeam(userIds[i], "person")))
  }

  /** Fills a slice of `|userIds|` entries, one person per id. */
  method BuildPeople(userIds: seq<GoInt>) returns (response: People)
    ensures |response.personsAndTeams| == |userIds|
    ensures forall i :: 0 <= i < |userIds| ==>
      response.personsAndTeams[i].id == userIds[i] && response.personsAndTeams[i].kind == "person"
    ensures response == PeopleFor(userIds)
  {
    var entries := new PersonTeam[|userIds|];
    for i := 0 to |userIds|
      invariant forall k :: 0 <= k < i ==> entries[k] == PersonTeam(userIds[k], "person")
    {
      entries[i] := PersonTeam(userIds[i], "person");
    }
    response := People(entries[..]);
  }

  // ---------------------------------------------------------------------
  // List decoders
  // ---------------------------------------------------------------------

  /** The decimal form of each id, in order. */
  function DecimalIds(ids: seq<GoInt>): seq<string> {
    seq(|ids|, i requires 0 <= i < |ids| => IntToDecimal(ids[i]))
  }

  function PersonIds(people: People): seq<GoInt> {
    seq(|people.personsAndTeams|, i requires 0 <= i < |people.personsAndTeams| => people.personsAndTeams[i].id)
  }

  /** What `DecodePeople` returns: nil when the payload does not unmarshal, else the ids as decimals. */
  function PeopleDecoding(lib: JsonLib, valueIn: string): Option<seq<string>> {
    var val := lib.unmarshalPeople(valueIn);
    if val.error.Some? then None else Some(DecimalIds(PersonIds(val.value)))
  }

  /** What `DecodeDropDown` returns: nil when the payload does not unmarshal, else the ids as decimals. */
  function DropDownDecoding(lib: JsonLib, valueIn: string): Option<seq<string>> {
    var val := lib.unmarshalDropDown(valueIn);
    if val.error.Some? then None else Some(DecimalIds(val.value.ids))
  }

  /** The user id of each person or team assigned, as decimal strings; `None` (nil) on a malformed payload. */
  method DecodePeople(lib: JsonLib, valueIn: string) returns (result: Option<seq<string>>)
    ensures result.None? <==> lib.unmarshalPeople(valueIn).error.Some?
    ensures result.Some? ==>
      var persons := lib.unmarshalPeople(valueIn).value.personsAndTeams;
      |result.value| == |persons| &&
      forall i :: 0 <= i < |persons| ==> result.value[i] == IntToDecimal(persons[i].id)
    ensures result == PeopleDecoding(lib, valueIn)
  {
    var val := lib.unmarshalPeople(valueIn);
    if val.error.Some? {
      return None;
    }
    var persons := val.value.personsAndTeams;
    var ids := new string[|persons|];
    for i := 0 to |persons|
      invariant forall k :: 0 <= k < i ==> ids[k] == IntToDecimal(persons[k].id)
    {
      ids[i] := IntToDecimal(persons[i].id);
    }
    assert ids[..] == DecimalIds(PersonIds(val.value));
    result := Some(ids[..]);
  }

  /** The ids of the selected dropdown labels, as decimal strings; `None` (nil) on a malformed payload. */
  method DecodeDropDown(lib: JsonLib, valueIn: string) returns (result: Option<seq<string>>)
    ensures result.None? <==> lib.unmarshalDropDown(valueIn).error.Some?
    ensures result.Some? ==>
      var selected := lib.unmarshalDropDown(valueIn).value.ids;
      |result.value| == |selected| &&
      forall i :: 0 <= i < |selected| ==> result.value[i] == IntToDecimal(selected[i])
    ensures result == DropDownDecoding(lib, valueIn)
  {
    var val := lib.unmarshalDropDown(valueIn);
    if val.error.Some? {
      return None;
    }
    var selected := val.value.ids;
    var ids := new string[|selected|];
    for i := 0 to |selected|
      invariant forall k :: 0 <= k < i ==> ids[k] == IntToDecimal(selected[k])
    {
      ids[i] := IntToDecimal(selected[i]);
    }
    assert ids[..] == DecimalIds(selected);
    result := Some(ids[..]);
  }

  // ---------------------------------------------------------------------
  // DecodeValue
  // ---------------------------------------------------------------------

  /** The three named results of `DecodeValue`; `None` stands for a nil slice or a nil error. */
  datatype Decoded = Decoded(result1: string, result2: Option<seq<string>>, err: Option<string>)

  /** Type tags decoded to a single string. */
  predicate IsSingleValued(columnType: string) {
    columnType == "text" || columnType == "color" || columnType == "boolean" || columnType == "date"
  }

  /** Type tags decoded to a list of strings. */
  predicate IsListValued(columnType: string) {
    columnType == "multiple-person" || columnType == "dropdown"
  }

  /** The error the library reports when a payload of this single-valued type is unmarshalled. */
  function UnmarshalError(lib: JsonLib, columnType: string, value: string): Option<string> {
    if columnType == "color" then lib.unmarshalStatusIndex(value).error
    else if columnType == "boolean" then lib.unmarshalCheckbox(value).error
    else if columnType == "date" then lib.unmarshalDateTime(value).error
    else None
  }

  /** The list a payload of this list-valued type decodes to (`None` is nil). */
  function ListDecoding(lib: JsonLib, columnType: string, value: string): Option<seq<string>> {
    if columnType == "multiple-person" then PeopleDecoding(lib, value)
    else if columnType == "dropdown" then DropDownDecoding(lib, value)
    else None
  }

  /**
   * Decodes one cell according to the type tag of its column. At most one of
   * `result1` and `result2` carries data: list-valued columns leave
   * `result1` empty and never report an error, and no error comes with a list.
   */
  function DecodeValue(lib: JsonLib, columnMap: ColumnMap, columnValue: ColumnValue): (r: Decoded)
    ensures r.result2.Some? ==> r.result1 == "" && r.err.None?
    ensures r.err.Some? ==> r.result2.None?
  {
    if columnValue.value == "" then
      Decoded("", None, None)
    else if columnValue.id !in columnMap then
      Decoded("", None, Some("invalid column id - " + columnValue.id))
    else
      var column := columnMap[columnValue.id];
      if column.columnType == "text" then
        Decoded(columnValue.value, None, None)
      else if column.columnType == "color" then
        var val := lib.unmarshalStatusIndex(columnValue.value);
        Decoded(IntToDecimal(val.value.index), None, val.error)
      else if column.columnType == "boolean" then
        var val := lib.unmarshalCheckbox(columnValue.value);
        Decoded(val.value.checked, None, val.error)
      else if column.columnType == "date" then
        var val := lib.unmarshalDateTime(columnValue.value);
        Decoded(val.value.date, None, val.error)
      else if column.columnType == "multiple-person" then
        Decoded("", PeopleDecoding(lib, columnValue.value), None)
      else if column.columnType == "dropdown" then
        Decoded("", DropDownDecoding(lib, columnValue.value), None)
      else
        Decoded("", None, Some("value type not handled - " + column.columnType))
  }

  /** An empty value decodes to nothing, whatever the column map holds. */
  lemma DecodeEmptyValue(lib: JsonLib, columnMap: ColumnMap, otherMap: ColumnMap, columnValue: ColumnValue)
    requires columnValue.value == ""
    ensures DecodeValue(lib, columnMap, columnValue) == Decoded("", None, None)
    ensures DecodeValue(lib, columnMap, columnValue) == DecodeValue(lib, otherMap, columnValue)
  {
  }

  lemma DecodeUnknownColumn(lib: JsonLib, columnMap: ColumnMap, columnValue: ColumnValue)
    requires columnValue.value != "" && columnValue.id !in columnMap
    ensures DecodeValue(lib, columnMap, columnValue)
      == Decoded("", None, Some("invalid column id - " + columnValue.id))
  {
  }

  lemma DecodeUnhandledType(lib: JsonLib, columnMap: ColumnMap, columnValue: ColumnValue)
    requires columnValue.value != "" && columnValue.id in columnMap
    requires !IsSingleValued(columnMap[columnValue.id].columnType)
    requires !IsListValued(columnMap[columnValue.id].columnType)
    ensures DecodeValue(lib, columnMap, columnValue)
      == Decoded("", None, Some("value type not handled - " + columnMap[columnValue.id].columnType))
  {
  }

  /** A text cell comes back exactly as stored. */
  lemma DecodeText(lib: JsonLib, columnMap: ColumnMap, columnValue: ColumnValue)
    requires columnValue.id in columnMap && columnMap[columnValue.id].columnType == "text"
    ensures DecodeValue(lib, columnMap, columnValue) == Decoded(columnValue.value, None, None)
  {
  }

  /** A decode reports an error exactly for an unknown column, an unhandled type, or a single-valued payload that does not unmarshal. */
  lemma DecodeErrorCases(lib: JsonLib, columnMap: ColumnMap, columnValue: ColumnValue)
    ensures DecodeValue(lib, columnMap, columnValue).err.Some? <==>
      columnValue.value != "" &&
      (columnValue.id !in columnMap ||
       (var t := columnMap[columnValue.id].columnType;
        (!IsSingleValued(t) && !IsListValued(t)) || UnmarshalError(lib, t, columnValue.value).Some?))
  {
  }

  /** A decode yields a list exactly for a list-valued column whose payload unmarshals; the list is then the list decoder's. */
  lemma DecodeListCases(lib: JsonLib, columnMap: ColumnMap, columnValue: ColumnValue)
    ensures DecodeValue(lib, columnMap, columnValue).result2.Some? <==>
      columnValue.value != "" && columnValue.id in columnMap &&
      IsListValued(columnMap[columnValue.id].columnType) &&
      ListDecoding(lib, columnMap[columnValue.id].columnType, columnValue.value).Some?
    ensures (columnValue.value != "" && columnValue.id in columnMap &&
             IsListValued(columnMap[columnValue.id].columnType)) ==>
      DecodeValue(lib, columnMap, columnValue)
        == Decoded("", ListDecoding(lib, columnMap[columnValue.id].columnType, columnValue.value), None)
  {
  }

  // ---------------------------------------------------------------------
  // Round trips: what a builder encodes, DecodeValue gives back
  // ---------------------------------------------------------------------

  lemma DecodeStatusIndexRoundTrip(lib: JsonLib, columnMap: ColumnMap, id: string, index: GoInt)
    requires lib.Faithful()
    requires id in columnMap && columnMap[id].columnType == "color"
    ensures DecodeValue(lib, columnMap, ColumnValue(id, lib.marshalStatusIndex(BuildStatusIndex(index))))
      == Decoded(IntToDecimal(index), None, None)
  {
  }

  lemma DecodeCheckboxRoundTrip(lib: JsonLib, columnMap: ColumnMap, id: string, checked: string)
    requires lib.Faithful()
    requires id in columnMap && columnMap[id].columnType == "boolean"
    ensures DecodeValue(lib, columnMap, ColumnValue(id, lib.marshalCheckbox(BuildCheckbox(checked))))
      == Decoded(checked, None, None)
  {
  }

  /** The date survives the round trip; the time of day is dropped. */
  lemma DecodeDateTimeRoundTrip(lib: JsonLib, columnMap: ColumnMap, id: string, date: string, time: string)
    requires lib.Faithful()
    requires id in columnMap && columnMap[id].columnType == "date"
    ensures DecodeValue(lib, columnMap, ColumnValue(id, lib.marshalDateTime(BuildDateTime(date, time))))
      == Decoded(date, None, None)
    ensures DecodeValue(lib, columnMap, ColumnValue(id, lib.marshalDateTime(BuildDate(date))))
      == Decoded(date, None, None)
  {
  }

  /** Decoding the people record built from `userIds` gives each id's decimal form, in order. */
  lemma {:induction false} PeopleDecodingRoundTrip(lib: JsonLib, userIds: seq<GoInt>)
    requires lib.Faithful()
    ensures PeopleDecoding(lib, lib.marshalPeople(PeopleFor(userIds))) == Some(DecimalIds(userIds))
  {
    assert lib.unmarshalPeople(lib.marshalPeople(PeopleFor(userIds))) == Parsed(PeopleFor(userIds), None);
    assert PersonIds(PeopleFor(userIds)) == userIds;
  }

  lemma DecodePeopleRoundTrip(lib: JsonLib, columnMap: ColumnMap, id: string, userIds: seq<GoInt>)
    requires lib.Faithful()
    requires id in columnMap && columnMap[id].columnType == "multiple-person"
    ensures DecodeValue(lib, columnMap, ColumnValue(id, lib.marshalPeople(PeopleFor(userIds))))
      == Decoded("", Some(DecimalIds(userIds)), None)
  {
    PeopleDecodingRoundTrip(lib, userIds);
  }

  lemma DecodeDropDownRoundTrip(lib: JsonLib, columnMap: ColumnMap, id: string, ids: seq<GoInt>)
    requires lib.Faithful()
    requires id in columnMap && columnMap[id].columnType == "dropdown"
    ensures DecodeValue(lib, columnMap, ColumnValue(id, lib.marshalDropDown(DropDown(ids))))
      == Decoded("", Some(DecimalIds(ids)), None)
  {
  }

  /** The decimal list loses nothing: it determines the ids it was made from. */
  lemma DecimalIdsInjective(a: seq<GoInt>, b: seq<GoInt>)
    ensures DecimalIds(a) == DecimalIds(b) <==> a == b
  {
    if DecimalIds(a) == DecimalIds(b) {
      forall i | 0 <= i < |a|
        ensures a[i] == b[i]
      {
        assert DecimalIds(a)[i] == DecimalIds(b)[i];
        IntToDecimalInjective(a[i], b[i]);
      }
    }
  }

  // ---------------------------------------------------------------------
  // Column map
  // ---------------------------------------------------------------------

  /** The map the insertion loop leaves after `columns`: each column in turn overwrites its id's entry. */
  function ColumnMapOf(columns: seq<Column>): ColumnMap
    decreases |columns|
  {
    if columns == [] then map[]
    else
      var last := columns[|columns| - 1];
      ColumnMapOf(columns[..|columns| - 1])[last.id := last]
  }

  /** The keys are exactly the ids of the columns. */
  lemma {:induction false} ColumnMapOfKeys(columns: seq<Column>)
    ensures ColumnMapOf(columns).Keys == set c | c in columns :: c.id
    decreases |columns|
  {
    if columns != [] {
      var init := columns[..|columns| - 1];
      ColumnMapOfKeys(init);
      assert columns == init + [columns[|columns| - 1]];
    }
  }

  /** Each id maps to the last column that carries it. */
  lemma {:induction false} ColumnMapOfLastWins(columns: seq<Column>, i: nat)
    requires i < |columns|
    requires forall j :: i < j < |columns| ==> columns[j].id != columns[i].id
    ensures columns[i].id in ColumnMapOf(columns) && ColumnMapOf(columns)[columns[i].id] == columns[i]
    decreases |columns|
  {
    if i < |columns| - 1 {
      ColumnMapOfLastWins(columns[..|columns| - 1], i);
    }
  }

  /** The loop of `CreateColumnMap`, over a column list already fetched. */
  method CreateColumnMap(columns: seq<Column>) returns (columnMap: ColumnMap)
    ensures columnMap.Keys == set c | c in columns :: c.id
    ensures forall i :: 0 <= i < |columns| && (forall j :: i < j < |columns| ==> columns[j].id != columns[i].id) ==>
      columnMap[columns[i].id] == columns[i]
    ensures columnMap == ColumnMapOf(columns)
  {
    columnMap := map[];
    for n := 0 to |columns|
      invariant columnMap == ColumnMapOf(columns[..n])
    {
      assert columns[..n + 1][..n] == columns[..n];
      columnMap := columnMap[columns[n].id := columns[n]];
    }
    assert columns[..|columns|] == columns;
    ColumnMapOfKeys(columns);
    forall i | 0 <= i < |columns| && (forall j :: i < j < |columns| ==> columns[j].id != columns[i].id)
      ensures columnMap[columns[i].id] == columns[i]
    {
      ColumnMapOfLastWins(columns, i);
    }
  }

  /** Against the map built from a board's columns, a cell whose id names none of them is reported as an invalid column id. */
  lemma DecodeAgainstColumns(lib: JsonLib, columns: seq<Column>, columnValue: ColumnValue)
    requires columnValue.value != ""
    requires forall c :: c in columns ==> c.id != columnValue.id
    ensures DecodeValue(lib, ColumnMapOf(columns), columnValue)
      == Decoded("", None, Some("invalid column id - " + columnValue.id))
  {
    ColumnMapOfKeys(columns);
  }

}
