/** The boundary to the two upstream providers: the calls the service makes, the
    replies it may get, and the normalisation of a fund reply. The HTTP transport
    itself is not modelled; a reply stands for what the awaited call resolved to
    or rejected with. */
module Upstream {
  import opened JsValues
  import opened TtlCache

  /** The cache key under which the IHS API key is kept. */
  const ApiKey: string := "ihs_apikey"

  /** TTL of the API key, in seconds. */
  const KeyTtl: Seconds := 3500

  /** TTL of a fund record, in seconds. */
  const FundTtl: Seconds := 2

  /** An outbound call. `apikey` and `username` are whatever JavaScript value the
      caller passed, `undefined` included. */
  datatype Call =
    | IhsAuthenticate
    | IhsFetch(fundTicker: string, apikey: Option<Json>)
    | SolactiveFetch(fundTicker: string, username: Option<Json>)

  /** What an awaited call produced: the reply body `response.data`, or the
      rejection `{message: ...}` that the provider functions throw. */
  datatype Reply = Ok(data: Json) | Failed(message: string)

  /** `ihs_getlatestfund` / `solactive_getlatestfund` after a successful reply:
      the first element of a non-empty array, the empty object otherwise. */
  function LatestFund(data: Json): (r: Json)
    ensures r == EmptyObject || (data.Arr? && |data.items| > 0 && r == data.items[0])
    ensures data.Arr? && |data.items| > 0 ==> r == data.items[0]
  {
    if data.Arr? && |data.items| > 0 then data.items[0] else EmptyObject
  }

  /** `ihs_getFundData` / `solactive_getFundData`: a null record becomes `{}`. */
  function NonNull(data: Json): (r: Json)
    ensures !r.Null?
    ensures data.Null? ==> r == EmptyObject
    ensures !data.Null? ==> r == data
  {
    if data.Null? then EmptyObject else data
  }

  /** The record a successful fund reply yields, through both steps above. It is
      never null, so once cached it always counts as a hit; it is the head of the
      reply when the reply is an array whose head is not null, and `{}` otherwise. */
  function FundOf(data: Json): (r: Json)
    ensures !r.Null?
    ensures data.Arr? && |data.items| > 0 && !data.items[0].Null? ==> r == data.items[0]
    ensures !(data.Arr? && |data.items| > 0 && !data.items[0].Null?) ==> r == EmptyObject
  {
    NonNull(LatestFund(data))
  }

  /** The outcome of awaiting `*_getFundData`: the record, or the rejection's message. */
  datatype Fetched = Record(rec: Json) | Rejected(message: string)

  function GetFundData(reply: Reply): (r: Fetched)
    ensures r.Record? <==> reply.Ok?
    ensures r.Record? ==> r.rec == FundOf(reply.data) && !r.rec.Null?
    ensures r.Rejected? ==> r.message == reply.message
  {
    match reply
    case Ok(data) => Record(FundOf(data))
    case Failed(m) => Rejected(m)
  }
}
