/** The running service: its configuration, the one shared cache, and whether
    startup has registered the jobs. Each method is one atomic step of the
    process (a request, a job tick, startup) and is proved to move the cache as
    the matching function of `Pipeline` or `Schedule` says. Upstream replies come
    in as parameters; the calls a step makes come out as `calls`. */
module Service {
  import opened JsValues
  import opened TtlCache
  import opened Upstream
  import opened Pipeline
  import Schedule

  datatype Phase = Booting | Serving(fundJobs: seq<string>) | Terminated

  class Server {
    const cfg: Config
    const cache: NodeCache
    var phase: Phase

    /** Module load: the configuration is read and an empty cache is created. */
    constructor (cfg: Config, start: int)
      ensures this.cfg == cfg && fresh(cache)
      ensures cache.entries == map[] && cache.now == start
      ensures phase == Booting
    {
      this.cfg := cfg;
      cache := new NodeCache(start);
      phase := Booting;
    }

    /** `startup()`: authenticate once; on success cache the key for 3500 s and
        register one fund job per allow-listed IHS code (and the key job); on
        failure the process exits. */
    method Startup(auth: Reply) returns (calls: seq<Call>)
      requires phase == Booting
      modifies this, cache
      ensures calls == [IhsAuthenticate] && cache.now == old(cache.now)
      ensures match Schedule.Startup(old(cache.entries), old(cache.now), IhsCodes(cfg), auth)
        case Running(es, jobs) => phase == Serving(jobs) && cache.entries == es
        case Exited => phase == Terminated && cache.entries == old(cache.entries)
    {
      calls := [IhsAuthenticate];
      match auth
      case Failed(_) =>
        phase := Terminated;
      case Ok(key) =>
        cache.Set(ApiKey, key, KeyTtl);
        var codes := IhsCodes(cfg);
        var jobs: seq<string> := [];
        for i := 0 to |codes|
          invariant jobs == codes[..i]
        {
          jobs := jobs + [codes[i]];
        }
        phase := Serving(jobs);
    }

    /** A tick of the fund job registered `i`-th. */
    method FundJob(i: nat, fetch: Reply) returns (calls: seq<Call>)
      requires phase.Serving? && i < |phase.fundJobs|
      modifies cache
      ensures cache.now == old(cache.now)
      ensures Schedule.Effect(cache.entries, calls)
           == Schedule.FundTick(old(cache.entries), old(cache.now), phase.fundJobs[i], fetch)
    {
      var code := phase.fundJobs[i];
      var key := cache.Get(ApiKey);
      calls := [IhsFetch(code, key)];
      match fetch
      case Ok(data) => cache.Set(code, FundOf(data), FundTtl);
      case Failed(_) =>
    }

    /** A tick of the key job. */
    method KeyJob(auth: Reply) returns (calls: seq<Call>)
      requires phase.Serving?
      modifies cache
      ensures cache.now == old(cache.now)
      ensures Schedule.Effect(cache.entries, calls) == Schedule.KeyTick(old(cache.entries), old(cache.now), auth)
    {
      calls := [IhsAuthenticate];
      match auth
      case Ok(key) => cache.Set(ApiKey, key, KeyTtl);
      case Failed(_) =>
    }

    /** `ihs_isAllowed`. */
    method IhsIsAllowed(code: string) returns (r: Option<Response>)
      ensures r == AllowGate(IhsCodes(cfg), code)
    {
      r := if code in IhsCodes(cfg) then None else Some(NotFound);
    }

    /** `solactive_isAllowed`. */
    method SolactiveIsAllowed(code: string) returns (r: Option<Response>)
      ensures r == AllowGate(SolactiveCodes(cfg), code)
    {
      r := if code in SolactiveCodes(cfg) then None else Some(NotFound);
    }

    /** `ihs_isCached`. */
    method IhsIsCached(code: string) returns (r: Option<Response>)
      ensures r == CacheGate("IHS", cache.entries, cache.now, code)
    {
      var cached := cache.Get(code);
      r := if IsNullish(cached) then None else Some(CachedSuccess(ShapeQuote("IHS", code, cached.value)));
    }

    /** `solactive_isCached`. */
    method SolactiveIsCached(code: string) returns (r: Option<Response>)
      ensures r == CacheGate("Solactive", cache.entries, cache.now, code)
    {
      var cached := cache.Get(code);
      r := if IsNullish(cached) then None else Some(CachedSuccess(ShapeQuote("Solactive", code, cached.value)));
    }

    /** `ihs_isAuthenticated`. */
    method IhsIsAuthenticated(auth: Reply) returns (a: AuthOutcome)
      modifies cache
      ensures cache.now == old(cache.now)
      ensures a == AuthGate(old(cache.entries), old(cache.now), auth)
      ensures cache.entries == if a.Authenticated? then a.entries else old(cache.entries)
    {
      var cached := cache.Get(ApiKey);
      if Truthy(cached) {
        a := Authenticated(cached.value, cache.entries, []);
      } else {
        match auth
        case Ok(key) =>
          cache.Set(ApiKey, key, KeyTtl);
          a := Authenticated(key, cache.entries, [IhsAuthenticate]);
        case Failed(m) =>
          a := Refused(AuthFailed400(m), [IhsAuthenticate]);
      }
    }

    /** The IHS route handler as written; `reqFundname` is `req.fundname`. */
    method IhsHandle(reqFundname: Option<string>, code: string, apikey: Json, fetch: Reply)
      returns (resp: Response, calls: seq<Call>)
      modifies cache
      ensures cache.now == old(cache.now)
      ensures Step(resp, cache.entries, calls)
           == IhsHandler(old(cache.entries), old(cache.now), reqFundname, code, apikey, fetch)
    {
      if reqFundname.None? {
        return Unhandled(LengthOfUndefined), [];
      }
      var name := if |reqFundname.value| > 0 then reqFundname.value else code;
      resp, calls := Handle(name, SolactiveFetch(name, Some(apikey)), fetch);
    }

    /** The Solactive route handler as written. */
    method SolactiveHandle(code: string, fetch: Reply) returns (resp: Response, calls: seq<Call>)
      modifies cache
      ensures cache.now == old(cache.now)
      ensures Step(resp, cache.entries, calls) == SolactiveHandler(old(cache.entries), old(cache.now), code, fetch)
    {
      resp, calls := Handle(code, IhsFetch(code, None), fetch);
    }

    /** The `try` block both handlers share: cache the record, then fail on `cachedData`. */
    method Handle(code: string, call: Call, fetch: Reply) returns (resp: Response, calls: seq<Call>)
      modifies cache
      ensures cache.now == old(cache.now)
      ensures Step(resp, cache.entries, calls) == TryBlock(old(cache.entries), old(cache.now), code, call, fetch)
    {
      calls := [call];
      match fetch
      case Ok(data) =>
        cache.Set(code, FundOf(data), FundTtl);
        resp := Error(CachedDataUndefined);
      case Failed(m) =>
        resp := Error(m);
    }

    /** GET /ihs/fund/:fundname: the four steps in order, each ending the request
        when it answers. Nothing on this route sets `req.fundname`. */
    method IhsRoute(code: string, auth: Reply, fetch: Reply) returns (resp: Response, calls: seq<Call>)
      requires !phase.Terminated?
      modifies cache
      ensures cache.now == old(cache.now)
      ensures Step(resp, cache.entries, calls) == IhsRequest(cfg, old(cache.entries), old(cache.now), code, auth, fetch)
    {
      var answer := IhsIsAllowed(code);
      if answer.Some? {
        return answer.value, [];
      }
      answer := IhsIsCached(code);
      if answer.Some? {
        return answer.value, [];
      }
      var a := IhsIsAuthenticated(auth);
      match a
      case Refused(r, cs) =>
        resp, calls := r, cs;
      case Authenticated(key, _, cs) =>
        var hcalls;
        resp, hcalls := IhsHandle(None, code, key, fetch);
        calls := cs + hcalls;
    }

    /** GET /solactive/fund/:fundname: allow-list, cache, handler. */
    method SolactiveRoute(code: string, fetch: Reply) returns (resp: Response, calls: seq<Call>)
      requires !phase.Terminated?
      modifies cache
      ensures cache.now == old(cache.now)
      ensures Step(resp, cache.entries, calls) == SolactiveRequest(cfg, old(cache.entries), old(cache.now), code, fetch)
    {
      var answer := SolactiveIsAllowed(code);
      if answer.Some? {
        return answer.value, [];
      }
      answer := SolactiveIsCached(code);
      if answer.Some? {
        return answer.value, [];
      }
      resp, calls := SolactiveHandle(code, fetch);
    }

    /** Time passes between steps. */
    method Wait(ms: nat)
      requires !phase.Terminated?
      modifies cache
      ensures cache.entries == old(cache.entries) && cache.now == old(cache.now) + ms
    {
      cache.Advance(ms);
    }
  }

  /** A client of the class: a Solactive fund requested twice, half a second
      apart, on a server whose startup succeeded. The first request fetches,
      caches the record and still answers with an error; the second is answered
      from the cache without any upstream call. */
  method RepeatedSolactiveRequest(cfg: Config, start: int, code: string, key: Json, data: Json)
    returns (first: Response, second: Response, secondCalls: seq<Call>)
    requires code in SolactiveCodes(cfg) && code != ApiKey
    ensures first == Error(CachedDataUndefined)
    ensures second == CachedSuccess(ShapeQuote("Solactive", code, FundOf(data)))
    ensures secondCalls == []
  {
    var server := new Server(cfg, start);
    var bootCalls := server.Startup(Ok(key));
    var firstCalls;
    first, firstCalls := server.SolactiveRoute(code, Ok(data));
    server.Wait(500);
    second, secondCalls := server.SolactiveRoute(code, Failed("unreachable"));
  }
}
