/** The per-request gate chains of the two fund routes, as functions of the cache
    contents at the instant of the request and of the replies the upstream calls
    would give. Each gate either answers or passes on (`None`), as Express
    middleware either responds or calls `next()`. */
module Pipeline {
  import opened JsValues
  import opened TtlCache
  import opened Upstream
  import AllowList

  /** The configuration read from the environment at load time. */
  datatype Config = Config(validCodes: string, solactiveIsins: string, solactiveUsername: string)

  /** `VALID_CODES.split(',')`: the IHS allow-list. */
  function IhsCodes(cfg: Config): (codes: seq<string>)
  {
    AllowList.Split(cfg.validCodes)
  }

  /** `SOLACTIVE_ISINS.split(',')`: the Solactive allow-list. */
  function SolactiveCodes(cfg: Config): (codes: seq<string>)
  {
    AllowList.Split(cfg.solactiveIsins)
  }

  /** The body of a success answer, field by field; `None` fields are left out of
      the JSON. `timeStamp` is the record's own, the `moment(...)` wrapping aside. */
  datatype Quote = Quote(
    provider: string,
    fundTicker: string,
    isin: Option<Json>,
    currency: Option<Json>,
    value: Option<Json>,
    timeStamp: Option<Json>)

  datatype Response =
    | NotFound                    // status 404, {status: 'not found'}
    | CachedSuccess(quote: Quote) // served by an `isCached` gate
    | AuthFailed400(message: string) // status 400, the authenticator's rejection message
    | Error(message: string)      // {status: 'error', message}
    | Success(quote: Quote)       // served by a handler after a fetch
    | Unhandled(message: string)  // the handler's promise rejected: no answer of its own

  /** Message of the TypeError thrown by `req.fundname.length` with `req.fundname` undefined. */
  const LengthOfUndefined: string := "Cannot read properties of undefined (reading 'length')"

  /** Message of the ReferenceError thrown by reading the undeclared `cachedData`. */
  const CachedDataUndefined: string := "cachedData is not defined"

  /** The answer a request ends with, the cache entries after it, and the
      upstream calls it made, in order. */
  datatype Step = Step(resp: Response, entries: Entries, calls: seq<Call>)

  /** The success body built from a record: `fundSecurityId` becomes the ISIN,
      `currency` and `values` the price, `timeStamp` is passed through. Nothing but
      the provider name, the requested ticker and the record goes in. */
  function ShapeQuote(provider: string, ticker: string, rec: Json): (q: Quote)
    requires !rec.Null?
    ensures q.provider == provider && q.fundTicker == ticker
    // each record field is copied when the record has it and left out otherwise
    ensures q.isin == (if rec.Obj? && "fundSecurityId" in rec.fields then Some(rec.fields["fundSecurityId"]) else None)
    ensures q.currency == (if rec.Obj? && "currency" in rec.fields then Some(rec.fields["currency"]) else None)
    ensures q.value == (if rec.Obj? && "values" in rec.fields then Some(rec.fields["values"]) else None)
    ensures q.timeStamp == (if rec.Obj? && "timeStamp" in rec.fields then Some(rec.fields["timeStamp"]) else None)
    ensures rec == EmptyObject ==> q.isin == q.currency == q.value == q.timeStamp == None
  {
    Quote(provider, ticker,
          Field(rec, "fundSecurityId"), Field(rec, "currency"),
          Field(rec, "values"), Field(rec, "timeStamp"))
  }

  /** `ihs_isAllowed` / `solactive_isAllowed`: a code outside the allow-list is
      answered 404 at once; a listed code passes on. */
  function AllowGate(codes: seq<string>, code: string): (r: Option<Response>)
    ensures r == None <==> code in codes
    ensures r != None ==> r == Some(NotFound)
  {
    if code !in codes then Some(NotFound) else None
  }

  /** `ihs_isCached` / `solactive_isCached`: any cached value other than
      undefined or null is a hit, `{}` included, and is answered from the cached
      record alone; otherwise the request passes on. */
  function CacheGate(provider: string, es: Entries, now: int, code: string): (r: Option<Response>)
    ensures r == None <==> IsNullish(Lookup(es, now, code))
    ensures r != None ==> r == Some(CachedSuccess(ShapeQuote(provider, code, Lookup(es, now, code).value)))
  {
    var cached := Lookup(es, now, code);
    if !IsNullish(cached) then Some(CachedSuccess(ShapeQuote(provider, code, cached.value))) else None
  }

  /** Outcome of the auth gate: go on with an API key, or stop with an answer. */
  datatype AuthOutcome =
    | Authenticated(apikey: Json, entries: Entries, calls: seq<Call>)
    | Refused(resp: Response, calls: seq<Call>)

  /** `ihs_isAuthenticated`: a truthy cached key is reused without calling the
      authenticator; otherwise the authenticator is called once, and its key is
      cached for 3500 s before the request goes on, or its rejection is answered
      with a 400 and the cache is left as it was. */
  function AuthGate(es: Entries, now: int, auth: Reply): (a: AuthOutcome)
    ensures Truthy(Lookup(es, now, ApiKey)) ==> a == Authenticated(Lookup(es, now, ApiKey).value, es, [])
    ensures !Truthy(Lookup(es, now, ApiKey)) ==> a.calls == [IhsAuthenticate]
    ensures !Truthy(Lookup(es, now, ApiKey)) && auth.Ok? ==>
      a.Authenticated? && a.apikey == auth.data && a.entries == Put(es, now, ApiKey, auth.data, KeyTtl)
    ensures !Truthy(Lookup(es, now, ApiKey)) && auth.Failed? ==> a.Refused? && a.resp == AuthFailed400(auth.message)
  {
    var cached := Lookup(es, now, ApiKey);
    if Truthy(cached) then Authenticated(cached.value, es, [])
    else
      match auth
      case Ok(key) => Authenticated(key, Put(es, now, ApiKey, key, KeyTtl), [IhsAuthenticate])
      case Failed(m) => Refused(AuthFailed400(m), [IhsAuthenticate])
  }

  /** The `try` block of both route handlers as written: await the fetch, cache
      its record under the code for 2 s, then read the undeclared `cachedData`,
      whose ReferenceError the `catch` answers as an error. A rejected fetch is
      answered with its message and caches nothing. */
  function TryBlock(es: Entries, now: int, code: string, call: Call, fetch: Reply): (s: Step)
    ensures s.calls == [call]
    ensures fetch.Ok? ==> s == Step(Error(CachedDataUndefined), Put(es, now, code, FundOf(fetch.data), FundTtl), [call])
    ensures fetch.Failed? ==> s == Step(Error(fetch.message), es, [call])
  {
    match GetFundData(fetch)
    case Record(rec) => Step(Error(CachedDataUndefined), Put(es, now, code, rec, FundTtl), [call])
    case Rejected(m) => Step(Error(m), es, [call])
  }

  /** The IHS route handler as written. `reqFundname` is `req.fundname`, which
      nothing sets on a request to this route, so it is `None` there and the
      first line throws before the `try`. Were it set, the handler would fetch
      through `solactive_getFundData`, passing the API key as the username. */
  function IhsHandler(es: Entries, now: int, reqFundname: Option<string>, code: string,
                      apikey: Json, fetch: Reply): (s: Step)
    ensures reqFundname.None? ==> s == Step(Unhandled(LengthOfUndefined), es, [])
    ensures reqFundname.Some? ==>
      var name := if |reqFundname.value| > 0 then reqFundname.value else code;
      s == TryBlock(es, now, name, SolactiveFetch(name, Some(apikey)), fetch)
  {
    match reqFundname
    case None => Step(Unhandled(LengthOfUndefined), es, [])
    case Some(f) =>
      var name := if |f| > 0 then f else code;
      TryBlock(es, now, name, SolactiveFetch(name, Some(apikey)), fetch)
  }

  /** The Solactive route handler as written: it fetches through
      `ihs_getFundData` with `res.locals.apikey`, which no gate of this route
      sets, so the key passed is undefined. */
  function SolactiveHandler(es: Entries, now: int, code: string, fetch: Reply): (s: Step)
    ensures s.calls == [IhsFetch(code, None)]
    ensures fetch.Ok? ==>
      && s.resp == Error(CachedDataUndefined)
      && s.entries == Put(es, now, code, FundOf(fetch.data), FundTtl)
      && forall t :: now <= t <= now + 2000 ==> Lookup(s.entries, t, code) == Some(FundOf(fetch.data))
    ensures fetch.Failed? ==> s.resp == Error(fetch.message) && s.entries == es
  {
    TryBlock(es, now, code, IhsFetch(code, None), fetch)
  }

  /** GET /ihs/fund/:fundname as written:
      `ihs_isAllowed` -> `ihs_isCached` -> `ihs_isAuthenticated` -> handler. */
  function IhsRequest(cfg: Config, es: Entries, now: int, code: string, auth: Reply, fetch: Reply): (s: Step)
    // not listed: 404, nothing read from the cache, nothing called
    ensures code !in IhsCodes(cfg) ==> s == Step(NotFound, es, [])
    // a hit: answered from the cached record, nothing called
    ensures code in IhsCodes(cfg) && !IsNullish(Lookup(es, now, code)) ==>
      s == Step(CachedSuccess(ShapeQuote("IHS", code, Lookup(es, now, code).value)), es, [])
    // the authenticator is called exactly on a miss with no truthy key cached
    ensures s.calls == (if code in IhsCodes(cfg) && IsNullish(Lookup(es, now, code)) && !Truthy(Lookup(es, now, ApiKey))
                        then [IhsAuthenticate] else [])
    // no provider is ever reached, and the only cache write is the fresh API key
    ensures s.entries == (if IhsAuthenticate in s.calls && auth.Ok? then Put(es, now, ApiKey, auth.data, KeyTtl) else es)
    // a miss ends in a 400 when authentication fails, and in the handler's TypeError otherwise
    ensures code in IhsCodes(cfg) && IsNullish(Lookup(es, now, code)) ==>
      s.resp == (if IhsAuthenticate in s.calls && auth.Failed? then AuthFailed400(auth.message)
                 else Unhandled(LengthOfUndefined))
  {
    match AllowGate(IhsCodes(cfg), code)
    case Some(r) => Step(r, es, [])
    case None =>
      match CacheGate("IHS", es, now, code)
      case Some(r) => Step(r, es, [])
      case None =>
        match AuthGate(es, now, auth)
        case Refused(r, calls) => Step(r, es, calls)
        case Authenticated(key, es1, calls) =>
          var h := IhsHandler(es1, now, None, code, key, fetch);
          Step(h.resp, h.entries, calls + h.calls)
  }

  /** GET /solactive/fund/:fundname as written:
      `solactive_isAllowed` -> `solactive_isCached` -> handler, with no auth gate. */
  function SolactiveRequest(cfg: Config, es: Entries, now: int, code: string, fetch: Reply): (s: Step)
    ensures code !in SolactiveCodes(cfg) ==> s == Step(NotFound, es, [])
    ensures code in SolactiveCodes(cfg) && !IsNullish(Lookup(es, now, code)) ==>
      s == Step(CachedSuccess(ShapeQuote("Solactive", code, Lookup(es, now, code).value)), es, [])
    // a miss never authenticates: it calls the IHS fetch once, with an undefined key
    ensures code in SolactiveCodes(cfg) && IsNullish(Lookup(es, now, code)) ==>
      s.calls == [IhsFetch(code, None)]
    // a fetch that resolves is cached for 2 s, and still the answer is an error
    ensures code in SolactiveCodes(cfg) && IsNullish(Lookup(es, now, code)) && fetch.Ok? ==>
      s.entries == Put(es, now, code, FundOf(fetch.data), FundTtl) && s.resp == Error(CachedDataUndefined)
    ensures code in SolactiveCodes(cfg) && IsNullish(Lookup(es, now, code)) && fetch.Failed? ==>
      s.entries == es && s.resp == Error(fetch.message)
  {
    match AllowGate(SolactiveCodes(cfg), code)
    case Some(r) => Step(r, es, [])
    case None =>
      match CacheGate("Solactive", es, now, code)
      case Some(r) => Step(r, es, [])
      case None => SolactiveHandler(es, now, code, fetch)
  }
}
