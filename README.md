# Column-value codec of go-monday-demo, in Dafny

This project models the column-value codec of the Go client for the monday.com
work-management API. Each board cell holds a raw JSON value. Its column's type
tag (`text`, `color`, `boolean`, `date`, `multiple-person`, `dropdown`) says
how to read that value.

The model covers four parts of `monday.go`:

- the builders that turn plain values into the vendor's payload records
  (`{"date","time"}`, `{"index"}`, `{"checked"}`, `{"personsAndTeams":[{"id","kind"}]}`);
- `DecodeValue`, which looks up a cell's column by id and dispatches on the type tag;
- the list decoders `DecodePeople` and `DecodeDropDown`;
- the loop of `CreateColumnMap` that indexes a board's columns by id.

Files:

- `wrappers.dfy`: `Option`. `None` stands for Go's `nil`.
- `strconv.dfy`: `strconv.Itoa` as `IntToDecimal`, with a reference inverse `ParseDecimal`.
- `definitions.dfy`: the records of `definitions.go`. Go's 64-bit `int` is `GoInt`.
- `json.dfy`: the library `encoding/json` as a parameter `JsonLib`. It holds one marshal
  function and one unmarshal function per payload record. Unmarshalling returns the
  record together with an optional error, because `DecodeValue` reads the record even
  when the error is set. `JsonLib.Faithful()` is what the round-trip lemmas assume of
  the library: unmarshalling marshalled text gives the record back without error, and
  marshalled text is never empty.
- `monday.dfy`: the codec.

The three named results of `DecodeValue` are the datatype `Decoded(result1, result2, err)`.
A nil `result2` is `None`, and so is a nil `err`. A non-nil empty slice is `Some([])`.

The loops in `BuildPeople`, `DecodePeople`, `DecodeDropDown` and `CreateColumnMap`
are methods that fill an array or a map step by step. Each is proved equal to a
specification function: `PeopleFor`, `PeopleDecoding`, `DropDownDecoding` and
`ColumnMapOf`. `DecodeValue` and the lemmas use those functions.

## Model

| member | source | states |
|---|---|---|
| Strconv.NatToDecimal | monday.go:287 | the decimal form of a natural number is a non-empty digit string with no leading zero |
| Strconv.IntToDecimal | monday.go:316 | `Itoa` output is non-empty; it starts with `-` exactly when the number is negative, and the rest is digits |
| Strconv.DecimalValueOfNatToDecimal | monday.go:333 | reading the digits of a natural number's decimal form gives the number back |
| Strconv.ParseIntToDecimal | monday.go:287 | parsing the `Itoa` text of any integer gives that integer back |
| Strconv.IntToDecimalInjective | monday.go:316 | two integers have the same `Itoa` text if and only if they are equal |
| Monday.BuildDate | monday.go:132-137 | `BuildDate(d)` is `BuildDateTime(d, "")`, a date with an empty time |
| Monday.BuildPeople | monday.go:144-151 | the record has exactly one entry per user id; entry i has id `userIds[i]` and kind `"person"` |
| Monday.DecodePeople | monday.go:306-319 | nil exactly when the payload does not unmarshal; otherwise one decimal string per person or team, entry i being the decimal form of id i |
| Monday.DecodeDropDown | monday.go:321-336 | nil exactly when the payload does not unmarshal; otherwise one decimal string per selected id, in order |
| Monday.DecodeValue | monday.go:271-304 | a list result comes with an empty `result1` and no error; an error never comes with a list |
| Monday.DecodeEmptyValue | monday.go:272-274 | an empty value gives `("", nil, nil)` and the result does not depend on the column map |
| Monday.DecodeUnknownColumn | monday.go:275-279 | a non-empty value whose column id is not in the map gives `("", nil, "invalid column id - " + id)` |
| Monday.DecodeUnhandledType | monday.go:281-301 | a column of any type other than the six handled ones gives `("", nil, "value type not handled - " + type)` |
| Monday.DecodeText | monday.go:282-283 | a text cell's value comes back unchanged as `result1`, with no list and no error |
| Monday.DecodeErrorCases | monday.go:271-304 | an error is reported if and only if the value is non-empty and the column is unknown, the type is unhandled, or a status, checkbox or date payload fails to unmarshal |
| Monday.DecodeListCases | monday.go:296-299 | a list comes back if and only if the column is a people or dropdown column whose payload unmarshals; for those columns `result1` is empty and there is no error, even on a malformed payload |
| Monday.DecodeStatusIndexRoundTrip | monday.go:284-287 | a `color` cell holding `BuildStatusIndex(n)` decodes to `IntToDecimal(n)`, no list, no error |
| Monday.DecodeCheckboxRoundTrip | monday.go:288-291 | a `boolean` cell holding `BuildCheckbox(s)` decodes to `s`, no list, no error |
| Monday.DecodeDateTimeRoundTrip | monday.go:292-295 | a `date` cell holding `BuildDateTime(d, t)` or `BuildDate(d)` decodes to `d`; the time is dropped |
| Monday.PeopleDecodingRoundTrip | monday.go:307-318 | decoding the people record built from a list of ids gives the decimal form of each id, in order |
| Monday.DecodePeopleRoundTrip | monday.go:296-297 | a `multiple-person` cell holding `BuildPeople(ids)` decodes to the decimal ids, empty `result1`, no error |
| Monday.DecodeDropDownRoundTrip | monday.go:298-299 | a `dropdown` cell holding `{"ids": ids}` decodes to the decimal ids, empty `result1`, no error |
| Monday.DecimalIdsInjective | monday.go:314-317 | the decoded decimal list determines the id list: two id lists give the same strings if and only if they are equal |
| Monday.ColumnMapOfKeys | monday.go:109-117 | the keys of the column map are exactly the ids of the columns |
| Monday.ColumnMapOfLastWins | monday.go:115-117 | an id maps to the last column in the list that has that id |
| Monday.CreateColumnMap | monday.go:108-118 | the loop builds a map whose keys are exactly the column ids, each mapped to the last column with that id |
| Monday.DecodeAgainstColumns | monday.go:275-279 | against the map built from a board's columns, a cell whose id matches no column is reported as an invalid column id |

## Left out

- `CreateClient`, `RunRequest`, `GetUsers`, `GetBoards`, `GetGroups`, `GetColumns`, `GetItems`, `AddItem`, `AddItemUpdate`: network round trips through the GraphQL transport, with no logic of their own beyond copying response fields.
- Monday.CreateColumnMap: takes the column list as input. The `GetColumns` call and its early error return (monday.go:111-114) are network I/O.
- `DecodeLabels`: it only prints labels, and its error path exits the process. It has no result to specify.
- The records `User`, `Board`, `Group` and `Item` of definitions.go: no part of the codec reads or builds them.
- The internals of `encoding/json`. Marshal and unmarshal are parameters (`Json.JsonLib`). The record and error that unmarshalling leaves after a failure are whatever that parameter returns. So the model keeps the source's behaviour of reading `val` even when `err` is set, but it does not fix the Go library's exact leftovers (for example, `"0"` for a malformed `color` payload). The round trips assume `JsonLib.Faithful()`.
- Strconv.IntToDecimal: it is defined on unbounded integers. Go's `int` range is enforced by the record fields (`GoInt`), not by the conversion. `strconv.Atoi` is not modelled; `ParseDecimal` is a reference inverse only (an optional `-` and then digits, with no `+` sign and no range check).
- Logging (`log.Println`, `fmt.Println`) in the list decoders and elsewhere.
- The format `{"ids":[...]}` has no builder in the source. The dropdown round trip starts from a `DropDown` record, marshalled by the library.
- A checkbox value is the string `Checked` (definitions.go:59-61), not a boolean. The model follows the code and round-trips any string.
