/**
 * The part of `encoding/json` the codec relies on, as a parameter. Each
 * payload record has a marshal function (record to wire text) and an
 * unmarshal function. Like Go's `json.Unmarshal`, unmarshalling always
 * leaves a record behind (the zero record, or whatever was filled in before
 * a failure) together with an optional error; the codec reads that record
 * even when the error is set.
 */
module Json {

  import opened Wrappers
  import opened Definitions

  /** A decoded record and the error `json.Unmarshal` reported, if any. */
  datatype Parsed<T> = Parsed(value: T, error: Option<string>)

  datatype JsonLib = JsonLib(
    marshalDateTime: DateTime -> string,
    unmarshalDateTime: string -> Parsed<DateTime>,
    marshalStatusIndex: StatusIndex -> string,
    unmarshalStatusIndex: string -> Parsed<StatusIndex>,
    marshalCheckbox: Checkbox -> string,
    unmarshalCheckbox: string -> Parsed<Checkbox>,
    marshalPeople: People -> string,
    unmarshalPeople: string -> Parsed<People>,
    marshalDropDown: DropDown -> string,
    unmarshalDropDown: string -> Parsed<DropDown>)
  {
    /**
     * What the round trips need of the library: unmarshalling the text a
     * record marshals to gives back that record without error, and that
     * text is never empty (a JSON object is at least `{}`).
     */
    ghost predicate Faithful() {
      && (forall r :: unmarshalDateTime(marshalDateTime(r)) == Parsed(r, None) && marshalDateTime(r) != "")
      && (forall r :: unmarshalStatusIndex(marshalStatusIndex(r)) == Parsed(r, None) && marshalStatusIndex(r) != "")
      && (forall r :: unmarshalCheckbox(marshalCheckbox(r)) == Parsed(r, None) && marshalCheckbox(r) != "")
      && (forall r :: unmarshalPeople(marshalPeople(r)) == Parsed(r, None) && marshalPeople(r) != "")
      && (forall r :: unmarshalDropDown(marshalDropDown(r)) == Parsed(r, None) && marshalDropDown(r) != "")
    }
  }

}
