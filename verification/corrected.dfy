/** The two route handlers as their authors evidently meant them, beside lemmas
    that pin down where the handlers as written differ. The gates are unchanged;
    only the handler after them is replaced. */
module Corrected {
  import opened JsValues
  import opened TtlCache
  import opened Upstream
  import opened Pipeline

  /** The handler `try` block as intended: await the fetch, cache the record under
      the code for 2 s, and answer with that same record. */
  function TryBlockCorrected(provider: string, es: Entries, now: int, code: string,
                             call: Call, fetch: Reply): (s: Step)
    ensures s.calls == [call]
    ensures fetch.Ok? ==>
      && s.resp == Success(ShapeQuote(provider, code, FundOf(fetch.data)))
      && s.entries == Put(es, now, code, FundOf(fetch.data), FundTtl)
      && forall t :: now <= t <= now + 2000 ==> Lookup(s.entries, t, code) == Some(FundOf(fetch.data))
    ensures fetch.Failed? ==> s == Step(Error(fetch.message), es, [call])
  {
    match GetFundData(fetch)
    case Record(rec) => Step(Success(ShapeQuote(provider, code, rec)), Put(es, now, code, rec, FundTtl), [call])
    case Rejected(m) => Step(Error(m), es, [call])
  }

  /** GET /ihs/fund/:fundname as intended: the handler reads the code from the
      route parameter and fetches through `ihs_getFundData` with the key the auth
      gate produced. */
  function IhsRequestCorrected(cfg: Config, es: Entries, now: int, code: string, auth: Reply, fetch: Reply): (s: Step)
    ensures code !in IhsCodes(cfg) ==> s == Step(NotFound, es, [])
    ensures code in IhsCodes(cfg) && !IsNullish(Lookup(es, now, code)) ==>
      s == Step(CachedSuccess(ShapeQuote("IHS", code, Lookup(es, now, code).value)), es, [])
  {
    match AllowGate(IhsCodes(cfg), code)
    case Some(r) => Step(r, es, [])
    case None =>
      match CacheGate("IHS", es, now, code)
      case Some(r) => Step(r, es, [])
      case None =>
        match AuthGate(es, now, auth)
        case Refused(r, calls) => Step(r, es, calls)
        case Authenticated(key, es1, calls) =>
          var h := TryBlockCorrected("IHS", es1, now, code, IhsFetch(code, Some(key)), fetch);
          Step(h.resp, h.entries, calls + h.calls)
  }

  /** GET /solactive/fund/:fundname as intended: the handler fetches through
      `solactive_getFundData` with the configured Solactive user name. */
  function SolactiveRequestCorrected(cfg: Config, es: Entries, now: int, code: string, fetch: Reply): (s: Step)
    ensures code !in SolactiveCodes(cfg) ==> s == Step(NotFound, es, [])
    ensures code in SolactiveCodes(cfg) && !IsNullish(Lookup(es, now, code)) ==>
      s == Step(CachedSuccess(ShapeQuote("Solactive", code, Lookup(es, now, code).value)), es, [])
    ensures code in SolactiveCodes(cfg) && IsNullish(Lookup(es, now, code)) ==>
      s.calls == [SolactiveFetch(code, Some(Str(cfg.solactiveUsername)))]
  {
    match AllowGate(SolactiveCodes(cfg), code)
    case Some(r) => Step(r, es, [])
    case None =>
      match CacheGate("Solactive", es, now, code)
      case Some(r) => Step(r, es, [])
      case None => TryBlockCorrected("Solactive", es, now, code,
                                     SolactiveFetch(code, Some(Str(cfg.solactiveUsername))), fetch)
  }

  // ----- index.js:260: `req.fundname` is never set on this route -----

  /** As written, every IHS miss that gets past the auth gate rejects with a
      TypeError before any provider is called and before any fund record is cached. */
  lemma IhsMissRejectsBeforeFetch(cfg: Config, es: Entries, now: int, code: string, key: Json, fetch: Reply)
    requires code in IhsCodes(cfg) && code != ApiKey
    requires IsNullish(Lookup(es, now, code))
    requires Lookup(es, now, ApiKey) == Some(key) && Truthy(Some(key))
    ensures var s := IhsRequest(cfg, es, now, code, Ok(key), fetch);
      s == Step(Unhandled(LengthOfUndefined), es, [])
  {
  }

  /** As intended, the same request fetches the fund from IHS with the cached key
      and answers with the record it cached. */
  lemma IhsCorrectedMissFetches(cfg: Config, es: Entries, now: int, code: string, key: Json, data: Json)
    requires code in IhsCodes(cfg) && code != ApiKey
    requires IsNullish(Lookup(es, now, code))
    requires Lookup(es, now, ApiKey) == Some(key) && Truthy(Some(key))
    ensures var s := IhsRequestCorrected(cfg, es, now, code, Ok(key), Ok(data));
      s.calls == [IhsFetch(code, Some(key))] &&
      s.resp == Success(ShapeQuote("IHS", code, FundOf(data))) &&
      Lookup(s.entries, now, code) == Some(FundOf(data))
  {
  }

  // ----- index.js:262: the IHS handler fetches from Solactive -----

  /** As written, even with the fund name supplied the IHS handler asks Solactive
      for the fund and hands it the IHS API key as a user name. A non-empty
      `req.fundname` wins over the route's code; an empty one falls back to it. */
  lemma IhsHandlerAsksSolactive(es: Entries, now: int, fundname: string, code: string, key: Json, fetch: Reply)
    ensures |fundname| > 0 ==>
      IhsHandler(es, now, Some(fundname), code, key, fetch).calls == [SolactiveFetch(fundname, Some(key))]
    ensures IhsHandler(es, now, Some(""), code, key, fetch).calls == [SolactiveFetch(code, Some(key))]
  {
  }

  // ----- index.js:268 and index.js:287: `cachedData` is undeclared -----

  /** As written, a Solactive miss whose fetch succeeds caches the record and yet
      answers with an error; the record is then served to the next request. */
  lemma SolactiveMissCachesButFails(cfg: Config, es: Entries, now: int, later: int, code: string,
                                    data: Json, fetch2: Reply)
    requires code in SolactiveCodes(cfg)
    requires IsNullish(Lookup(es, now, code))
    requires now <= later <= now + 2000
    ensures var s1 := SolactiveRequest(cfg, es, now, code, Ok(data));
      s1.resp == Error(CachedDataUndefined) &&
      SolactiveRequest(cfg, s1.entries, later, code, fetch2)
        == Step(CachedSuccess(ShapeQuote("Solactive", code, FundOf(data))), s1.entries, [])
  {
  }

  /** As intended, the first request answers with the fetched record and a repeat
      within the TTL answers with the very same quote from the cache, without a
      second fetch. */
  lemma CorrectedMissThenHit(cfg: Config, es: Entries, now: int, later: int, code: string,
                              data: Json, fetch2: Reply)
    requires code in SolactiveCodes(cfg)
    requires IsNullish(Lookup(es, now, code))
    requires now <= later <= now + 2000
    ensures var s1 := SolactiveRequestCorrected(cfg, es, now, code, Ok(data));
      var q := ShapeQuote("Solactive", code, FundOf(data));
      s1.resp == Success(q) &&
      SolactiveRequestCorrected(cfg, s1.entries, later, code, fetch2) == Step(CachedSuccess(q), s1.entries, [])
  {
  }

  /** The same for the IHS route, whichever way the key was obtained. */
  lemma IhsCorrectedMissThenHit(cfg: Config, es: Entries, now: int, later: int, code: string,
                                auth: Reply, data: Json, auth2: Reply, fetch2: Reply)
    requires code in IhsCodes(cfg)
    requires IsNullish(Lookup(es, now, code))
    requires Truthy(Lookup(es, now, ApiKey)) || auth.Ok?
    requires now <= later <= now + 2000
    ensures var s1 := IhsRequestCorrected(cfg, es, now, code, auth, Ok(data));
      var q := ShapeQuote("IHS", code, FundOf(data));
      s1.resp == Success(q) &&
      IhsRequestCorrected(cfg, s1.entries, later, code, auth2, fetch2) == Step(CachedSuccess(q), s1.entries, [])
  {
  }

  // ----- index.js:281: the Solactive handler fetches from IHS -----

  /** As written, every Solactive miss asks IHS for the fund, with an undefined key. */
  lemma SolactiveMissAsksIhs(cfg: Config, es: Entries, now: int, code: string, fetch: Reply)
    requires code in SolactiveCodes(cfg)
    requires IsNullish(Lookup(es, now, code))
    ensures SolactiveRequest(cfg, es, now, code, fetch).calls == [IhsFetch(code, None)]
  {
  }

  /** As intended, a Solactive miss asks Solactive, with the configured user name,
      and answers with what it cached. */
  lemma SolactiveCorrectedMissFetches(cfg: Config, es: Entries, now: int, code: string, data: Json)
    requires code in SolactiveCodes(cfg)
    requires IsNullish(Lookup(es, now, code))
    ensures var s := SolactiveRequestCorrected(cfg, es, now, code, Ok(data));
      s.calls == [SolactiveFetch(code, Some(Str(cfg.solactiveUsername)))] &&
      s.resp == Success(ShapeQuote("Solactive", code, FundOf(data))) &&
      Lookup(s.entries, now, code) == Some(FundOf(data))
  {
  }

  // ----- worked examples -----

  /** A fund record as an upstream would send it. */
  const ExampleRecord: Json :=
    Obj(map["fundSecurityId" := Str("US1234"), "currency" := Str("USD"),
            "values" := Num(101.5), "timeStamp" := Str("2024-01-02T10:00:00Z")])

  /** A fund with one record upstream, nothing cached: the first request answers
      with its ISIN and price, and a request a second later gets the same answer
      from the cache while both upstream calls would fail. */
  lemma ExampleFundServedThenCached()
    ensures var cfg := Config("ABC", "", "user");
      var s1 := IhsRequestCorrected(cfg, map[], 0, "ABC", Ok(Str("k")), Ok(Arr([ExampleRecord])));
      var q := Quote("IHS", "ABC", Some(Str("US1234")), Some(Str("USD")), Some(Num(101.5)),
                     Some(Str("2024-01-02T10:00:00Z")));
      s1 == Step(Success(q), s1.entries, [IhsAuthenticate, IhsFetch("ABC", Some(Str("k")))]) &&
      IhsRequestCorrected(cfg, s1.entries, 1000, "ABC", Failed("down"), Failed("down"))
        == Step(CachedSuccess(q), s1.entries, [])
  {
    var cfg := Config("ABC", "", "user");
    var rec := ExampleRecord;
    ExampleAllowList();
    assert FundOf(Arr([rec])) == rec;
    var q := Quote("IHS", "ABC", Some(Str("US1234")), Some(Str("USD")), Some(Num(101.5)),
                   Some(Str("2024-01-02T10:00:00Z")));
    ExampleQuote();
    var es1 := Put(map[], 0, ApiKey, Str("k"), KeyTtl);
    assert AuthGate(map[], 0, Ok(Str("k"))) == Authenticated(Str("k"), es1, [IhsAuthenticate]);
    var s1 := IhsRequestCorrected(cfg, map[], 0, "ABC", Ok(Str("k")), Ok(Arr([rec])));
    assert s1 == Step(Success(q), Put(es1, 0, "ABC", rec, FundTtl), [IhsAuthenticate, IhsFetch("ABC", Some(Str("k")))]);
    assert Lookup(s1.entries, 1000, "ABC") == Some(rec);
  }

  /** The allow-list of the example: `"ABC".split(',')` is the one code. */
  lemma ExampleAllowList()
    ensures IhsCodes(Config("ABC", "", "user")) == ["ABC"]
  {
    assert "ABC"[1..] == "BC" && "BC"[1..] == "C" && "C"[1..] == "";
    assert AllowList.Split("") == [""];
    assert ['C'] + "" == "C" && ['B'] + "C" == "BC" && ['A'] + "BC" == "ABC";
    assert AllowList.Split("C") == ["C"];
    assert AllowList.Split("BC") == ["BC"];
  }

  /** The answer the example record gives, field by field. */
  lemma ExampleQuote()
    ensures ShapeQuote("IHS", "ABC", ExampleRecord)
         == Quote("IHS", "ABC", Some(Str("US1234")), Some(Str("USD")), Some(Num(101.5)),
                  Some(Str("2024-01-02T10:00:00Z")))
  {
  }

  /** An upstream reply with no rows is cached as the empty record, not treated as
      an error, and it answers the next request without a second fetch. */
  lemma EmptyReplyCachedAsEmptyRecord(cfg: Config, es: Entries, now: int, code: string, fetch2: Reply)
    requires code in SolactiveCodes(cfg)
    requires IsNullish(Lookup(es, now, code))
    ensures var s1 := SolactiveRequestCorrected(cfg, es, now, code, Ok(Arr([])));
      var empty := Quote("Solactive", code, None, None, None, None);
      s1.resp == Success(empty) &&
      SolactiveRequestCorrected(cfg, s1.entries, now + 2000, code, fetch2) == Step(CachedSuccess(empty), s1.entries, [])
  {
  }
}
