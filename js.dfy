/** JavaScript values the client passes around: optional members and flat JSON records. */
module Js {

  /** A member that may be undefined or null. */
  datatype Option<+T> = None | Some(value: T)

  /** A JSON object whose members are read as strings (`res.data`, the decoded pass). */
  type Record = map<string, string>

  /** `d.Key || ''`: a member that is absent (or empty) reads as the empty string. */
  function Field(d: Record, key: string): (r: string)
    ensures key in d ==> r == d[key]
    ensures key !in d ==> r == ""
  {
    if key in d then d[key] else ""
  }

  /** JavaScript truthiness of an optional string: defined and non-empty. */
  predicate Truthy(s: Option<string>) {
    s.Some? && s.value != ""
  }
}
