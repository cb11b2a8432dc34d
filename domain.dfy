/** Entities shared by the pages: transactions, categories, calendar dates
    and the abstract shape of an HTTP reply. */
module Domain {
  import opened Wrappers

  /** A JavaScript `Date` month: 0 for January through 11 for December. */
  type Month0 = m: int | 0 <= m < 12

  /** A calendar date as the pages see it after `new Date(...)`; parsing is not modelled. */
  datatype Date = Date(year: int, month: Month0, day: int)

  datatype Kind = Expense | Revenue

  /** A transaction as the transactions API returns it. Amounts are exact cents. */
  datatype Transaction = Transaction(
    id: string,
    amount: int,
    kind: Kind,
    category: string,
    date: Date,
    description: string)

  /** A budget category. The budget is in exact cents. */
  datatype Category = Category(id: string, name: string, budget: int)

  /** The body of an error response: the optional `error` field. */
  datatype ErrorBody = ErrorBody(error: Option<string>)

  /** What a `fetch` yields: either it rejects (network failure), or it answers with
      the `ok` flag and the body; `body` is None when `response.json()` would throw
      or the JSON is not of the shape the page reads. */
  datatype Reply<T> = NetworkError | Answered(ok: bool, body: Option<T>)

  /** JavaScript `field || fallback` on an optional string field: a missing field and
      the empty string both fall back. */
  function ServerErrorOr(field: Option<string>, fallback: string): (r: string)
    ensures field.Some? && field.value != "" ==> r == field.value
    ensures field.None? || field.value == "" ==> r == fallback
    ensures fallback != "" ==> r != ""
  {
    match field
    case Some(e) => if e != "" then e else fallback
    case None => fallback
  }
}
