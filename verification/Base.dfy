/** What the modules share: optional values, sequences without repetition, and resource and instance ids.
    The agent only ever compares ids, so they are an arbitrary type with equality. */
module Base {
  type Id(==, !new)

  datatype Option<+T> = None | Some(value: T)

  ghost predicate Distinct<T>(s: seq<T>) {
    forall i, j :: 0 <= i < j < |s| ==> s[i] != s[j]
  }
}
