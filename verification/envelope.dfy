/** The uniform reply body `{count, returned, data, error}` and the
    model-generated entity routes that wrap a query outcome in it. */
module Envelope {
  import opened Types

  /** A record as the data layer hands it over: column name to value. */
  type Row = map<string, string>

  /** The reply body. `data` is `None` (JSON null) on failure and `error` is
      `None` (JSON null) on success. */
  datatype Body<T> = Body(count: int, returned: int, data: Option<seq<T>>, error: Option<string>)

  datatype Reply<T> = Reply(status: int, body: Body<T>)

  /** The fixed shape every reply has: a 200 with data and no error whose
      `returned` is the length of `data`, or a 400 with null data, zero counts
      and an error message. */
  predicate WellFormed<T>(r: Reply<T>)
  {
    || (&& r.status == 200
        && r.body.error == None
        && r.body.data.Some?
        && r.body.returned == |r.body.data.value|)
    || (&& r.status == 400
        && r.body.error.Some?
        && r.body.data == None
        && r.body.count == 0
        && r.body.returned == 0)
  }

  /** The unlimited count `data.limit(nil).count(1)`, which may itself raise. */
  datatype Count = Counted(total: nat) | CountRaised(message: string)

  /** The outcome of a model's `endpoint(params)`: it raises, or it returns
      the (possibly limited) rows together with the count of all matches. */
  datatype Query = Raised(message: string) | Fetched(rows: seq<Row>, unlimited: Count)

  const NoResultsMessage := "no results found"

  /** Every failure is rescued into the same 400 body. */
  function Failure(message: string): (r: Reply<Row>)
    ensures WellFormed(r) && r.status == 400 && r.body.error == Some(message)
  {
    Reply(400, Body(0, 0, None, Some(message)))
  }

  /** A model route's reply. An empty result is checked before the count is
      taken, so an empty result reports `no results found` even when the
      count would have raised. */
  function EntityReply(q: Query): (r: Reply<Row>)
    ensures WellFormed(r)
    ensures r.status == 200 <==> q.Fetched? && |q.rows| > 0 && q.unlimited.Counted?
    ensures r.status == 200 ==>
      r.body.count == q.unlimited.total && r.body.returned == |q.rows| && r.body.data == Some(q.rows)
    ensures q.Raised? ==> r.body.error == Some(q.message)
    ensures q.Fetched? && |q.rows| == 0 ==> r.body.error == Some(NoResultsMessage)
    ensures q.Fetched? && |q.rows| > 0 && q.unlimited.CountRaised? ==> r.body.error == Some(q.unlimited.message)
  {
    match q
    case Raised(m) => Failure(m)
    case Fetched(rows, unlimited) =>
      if |rows| == 0 then Failure(NoResultsMessage)
      else
        match unlimited
        case CountRaised(m) => Failure(m)
        case Counted(n) => Reply(200, Body(n, |rows|, Some(rows), None))
  }
}
