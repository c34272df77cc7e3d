/** What the frontend stores share: the outcome of an awaited API call, the
    error text a store keeps when it fails, and JavaScript truthiness of the few
    values the stores test with `!` or `||`. */
module StoreCommon {
  import opened Wrappers

  datatype Status = Online | Offline

  /** The value a rejected promise carries: an `Error` with its message, or
      anything else that was thrown. */
  datatype Thrown = ErrorValue(message: string) | OtherValue

  /** An awaited API call: it resolves with a value or rejects. */
  datatype ApiCall<+T> = Resolved(value: T) | Rejected(thrown: Thrown)

  /** `err instanceof Error ? err.message : fallback`. */
  function ErrorText(t: Thrown, fallback: string): (s: string)
    ensures t.ErrorValue? ==> s == t.message
    ensures t.OtherValue? ==> s == fallback
  {
    match t
    case ErrorValue(m) => m
    case OtherValue => fallback
  }

  /** `CheckConnectionResponse`. */
  datatype CheckResult = CheckResult(success: bool, status: Status, responseTime: Option<int>, error: Option<string>)

  /** `!!n` for a `number | null`: null and 0 are falsy. */
  predicate TruthyId(n: Option<int>) {
    n.Some? && n.value != 0
  }

  /** `s || undefined` for a string: the empty string becomes `undefined`. */
  function OrUndefined(s: string): (r: Option<string>)
    ensures r.None? <==> s == ""
    ensures r.Some? ==> r.value == s
  {
    if s == "" then None else Some(s)
  }

  /** `!!s` for a `string | null`. */
  predicate TruthyStr(s: Option<string>) {
    s.Some? && s.value != ""
  }
}
