/**
 * The records of definitions.go that the column-value codec reads and
 * builds. Go's `int` is 64 bits wide here; `GoInt` keeps that range.
 */
module Definitions {

  const MinInt: int := -0x8000_0000_0000_0000
  const MaxInt: int := 0x7fff_ffff_ffff_ffff

  type GoInt = x: int | MinInt <= x <= MaxInt

  /** A board column: its id, title, type tag (`text`, `color`, ...) and raw settings JSON. */
  datatype Column = Column(id: string, title: string, columnType: string, settings: string)

  /** Column id to column, for one board. */
  type ColumnMap = map<string, Column>

  /** The raw JSON value of one cell, with the id of its column. */
  datatype ColumnValue = ColumnValue(id: string, value: string)

  /** Wire shape `{"date": ..., "time": ...}`. */
  datatype DateTime = DateTime(date: string, time: string)

  /** Wire shape `{"index": N}`. */
  datatype StatusIndex = StatusIndex(index: GoInt)

  /** Wire shape `{"id": N, "kind": "person" | "team"}`. */
  datatype PersonTeam = PersonTeam(id: GoInt, kind: string)

  /** Wire shape `{"personsAndTeams": [...]}`. */
  datatype People = People(personsAndTeams: seq<PersonTeam>)

  /** Wire shape `{"checked": "true" | "false"}`. */
  datatype Checkbox = Checkbox(checked: string)

  /** Wire shape `{"ids": [N, ...]}`, the anonymous record that dropdown values decode into. */
  datatype DropDown = DropDown(ids: seq<GoInt>)

}
