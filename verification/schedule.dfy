/** Startup and the two kinds of cron job, each taken as one atomic transition of
    the cache, and the timing argument for why the API key never expires while
    every re-authentication succeeds. Times are process-clock milliseconds. */
module Schedule {
  import opened JsValues
  import opened TtlCache
  import opened Upstream

  /** What a transition did: the cache entries after it and the calls it made. */
  datatype Effect = Effect(entries: Entries, calls: seq<Call>)

  /** What startup leads to: jobs running (one fund job per listed code, plus the
      key job), or the process gone. */
  datatype Boot = Running(entries: Entries, fundJobs: seq<string>) | Exited

  /** `startup()`: one authentication; on success the key is cached for 3500 s and
      the jobs are registered, on failure the process exits with nothing cached. */
  function Startup(es: Entries, now: int, codes: seq<string>, auth: Reply): (b: Boot)
    ensures b.Exited? <==> auth.Failed?
    ensures b.Running? ==> b.fundJobs == codes
    // the key is written with its 3500 s TTL and nothing else is written
    ensures b.Running? ==> b.entries == Put(es, now, ApiKey, auth.data, KeyTtl)
    ensures b.Running? ==> forall t :: now <= t <= now + 3_500_000 ==> Lookup(b.entries, t, ApiKey) == Some(auth.data)
    ensures b.Running? ==> forall k, t :: k != ApiKey ==> Lookup(b.entries, t, k) == Lookup(es, t, k)
  {
    match auth
    case Ok(key) => Running(Put(es, now, ApiKey, key, KeyTtl), codes)
    case Failed(_) => Exited
  }

  /** One tick of the fund job for `code`: whatever key is cached, undefined
      included, is handed to the IHS fetch; there is no re-authentication. A
      record that comes back is cached for 2 s; a failure changes nothing. */
  function FundTick(es: Entries, now: int, code: string, fetch: Reply): (e: Effect)
    ensures e.calls == [IhsFetch(code, Lookup(es, now, ApiKey))]
    ensures fetch.Failed? ==> e.entries == es
    ensures fetch.Ok? ==> e.entries == Put(es, now, code, FundOf(fetch.data), FundTtl)
    ensures fetch.Ok? ==> forall t :: now <= t <= now + 2000 ==> Lookup(e.entries, t, code) == Some(FundOf(fetch.data))
    ensures forall k, t :: k != code ==> Lookup(e.entries, t, k) == Lookup(es, t, k)
  {
    var call := IhsFetch(code, Lookup(es, now, ApiKey));
    match fetch
    case Ok(data) => Effect(Put(es, now, code, FundOf(data), FundTtl), [call])
    case Failed(_) => Effect(es, [call])
  }

  /** One tick of the key job: authenticate, and on success replace the cached
      key unconditionally for another 3500 s; a failure changes nothing. */
  function KeyTick(es: Entries, now: int, auth: Reply): (e: Effect)
    ensures e.calls == [IhsAuthenticate]
    ensures auth.Failed? ==> e.entries == es
    ensures auth.Ok? ==> e.entries == Put(es, now, ApiKey, auth.data, KeyTtl)
    ensures auth.Ok? ==> forall t :: now <= t <= now + 3_500_000 ==> Lookup(e.entries, t, ApiKey) == Some(auth.data)
    ensures forall k, t :: k != ApiKey ==> Lookup(e.entries, t, k) == Lookup(es, t, k)
  {
    match auth
    case Ok(key) => Effect(Put(es, now, ApiKey, key, KeyTtl), [IhsAuthenticate])
    case Failed(_) => Effect(es, [IhsAuthenticate])
  }

  const SecondMs: int := 1000
  const MinuteMs: int := 60 * SecondMs
  const HourMs: int := 60 * MinuteMs

  /** The key job's schedule, every 55th minute counted from minute 0: minute 0
      and minute 55 of every hour, at second 0. */
  predicate IsKeyTickTime(t: int)
  {
    t % HourMs == 0 || t % HourMs == 55 * MinuteMs
  }

  /** A fund job's schedule, a six-field pattern stepping the seconds by one:
      every whole second. */
  predicate IsFundTickTime(t: int)
  {
    t % SecondMs == 0
  }

  /** The latest key tick at or before `t`. */
  function LastKeyTick(t: int): (r: int)
  {
    var hour := t - t % HourMs;
    if t % HourMs >= 55 * MinuteMs then hour + 55 * MinuteMs else hour
  }

  /** The key job never leaves more than 55 minutes (3300 s) without a tick: the
      latest tick at or before `t` is less than 55 minutes back, and there is no
      tick between it and `t`. */
  lemma KeyTicksAtMost55MinutesApart(t: int)
    ensures IsKeyTickTime(LastKeyTick(t))
    ensures LastKeyTick(t) <= t < LastKeyTick(t) + 55 * MinuteMs
    ensures forall u :: LastKeyTick(t) < u <= t ==> !IsKeyTickTime(u)
  {
    var q := t / HourMs;
    var hour := t - t % HourMs;
    assert hour == q * HourMs;
    HourOffset(q, 0);
    HourOffset(q, 55 * MinuteMs);
    forall u | LastKeyTick(t) < u <= t
      ensures !IsKeyTickTime(u)
    {
      HourOffset(q, u - hour);
    }
  }

  /** An instant `d` ms into hour `q` has `d` as its offset into the hour. */
  lemma HourOffset(q: int, d: int)
    requires 0 <= d < HourMs
    ensures (q * HourMs + d) % HourMs == d
  {
  }

  /** The latest fund tick at or before `t`. */
  function LastFundTick(t: int): (r: int)
  {
    t - t % SecondMs
  }

  lemma FundTicksOneSecondApart(t: int)
    ensures IsFundTickTime(LastFundTick(t))
    ensures LastFundTick(t) <= t < LastFundTick(t) + SecondMs
  {
  }

  /** A cache write as some transition makes it. */
  datatype Write = Write(at: int, key: string, value: Json, ttl: Seconds)

  /** The cache after a run of writes, applied in order. */
  function Replay(es: Entries, ws: seq<Write>): (r: Entries)
  {
    if ws == [] then es
    else
      var w := ws[|ws| - 1];
      Put(Replay(es, ws[..|ws| - 1]), w.at, w.key, w.value, w.ttl)
  }

  /** Appending a write to the log is one more `Put` on the replayed cache. */
  lemma ReplaySnoc(es: Entries, ws: seq<Write>, w: Write)
    ensures Replay(es, ws + [w]) == Put(Replay(es, ws), w.at, w.key, w.value, w.ttl)
  {
    assert (ws + [w])[..|ws|] == ws;
  }

  /** A successful startup makes the key write that starts the log. */
  lemma StartupWrites(es: Entries, now: int, codes: seq<string>, k: Json)
    ensures Startup(es, now, codes, Ok(k)).entries == Replay(es, [Write(now, ApiKey, k, KeyTtl)])
  {
    ReplaySnoc(es, [], Write(now, ApiKey, k, KeyTtl));
  }

  /** A successful key tick appends one key write, with the key's TTL, to the log. */
  lemma KeyTickWrites(es: Entries, ws: seq<Write>, t: int, k: Json)
    ensures KeyTick(Replay(es, ws), t, Ok(k)).entries == Replay(es, ws + [Write(t, ApiKey, k, KeyTtl)])
  {
    ReplaySnoc(es, ws, Write(t, ApiKey, k, KeyTtl));
  }

  /** A successful fund tick appends one write of the fund's record, with the
      fund TTL, to the log; a failed tick appends nothing. */
  lemma FundTickWrites(es: Entries, ws: seq<Write>, t: int, code: string, fetch: Reply)
    ensures fetch.Ok? ==>
      FundTick(Replay(es, ws), t, code, fetch).entries == Replay(es, ws + [Write(t, code, FundOf(fetch.data), FundTtl)])
    ensures fetch.Failed? ==> FundTick(Replay(es, ws), t, code, fetch).entries == Replay(es, ws)
  {
    if fetch.Ok? {
      ReplaySnoc(es, ws, Write(t, code, FundOf(fetch.data), FundTtl));
    }
  }

  predicate InTimeOrder(ws: seq<Write>)
  {
    forall i, j :: 0 <= i < j < |ws| ==> ws[i].at <= ws[j].at
  }

  /** If every write to `key` uses the same TTL, the writes come in time order
      and none is later than `t`, then any one write to `key` whose TTL still
      covers `t` keeps `key` cached at `t`: a later write only moves the expiry on. */
  lemma {:induction false} CoveredKeyIsCached(es: Entries, ws: seq<Write>, key: string, ttl: Seconds, i: nat, t: int)
    requires InTimeOrder(ws)
    requires forall j :: 0 <= j < |ws| ==> ws[j].at <= t
    requires forall j :: 0 <= j < |ws| && ws[j].key == key ==> ws[j].ttl == ttl
    requires i < |ws| && ws[i].key == key && t <= ws[i].at + 1000 * ttl
    ensures Lookup(Replay(es, ws), t, key).Some?
  {
    var n := |ws| - 1;
    var w := ws[n];
    if w.key == key {
      assert ws[i].at <= w.at;
    } else {
      var prefix := ws[..n];
      assert i < n;
      assert forall j :: 0 <= j < |prefix| ==> prefix[j] == ws[j];
      CoveredKeyIsCached(es, prefix, key, ttl, i, t);
    }
  }

  /** The API key never expires after a successful startup, provided every key
      tick since then succeeded and nothing but the key jobs writes the key.
      `ws` are the cache writes from startup (`ws[0]`, at `start`) up to `t`. The
      proviso fails when `"ihs_apikey"` is itself an allow-listed fund code: a
      fund write then puts a record with a 2 s TTL under the key's name. */
  lemma {:induction false} ApiKeyNeverExpires(ws: seq<Write>, start: int, t: int)
    requires InTimeOrder(ws)
    requires |ws| > 0 && ws[0].key == ApiKey && ws[0].at == start && start <= t
    requires forall j :: 0 <= j < |ws| ==> ws[j].at <= t
    requires forall j :: 0 <= j < |ws| && ws[j].key == ApiKey ==> ws[j].ttl == KeyTtl
    requires forall u :: start < u <= t && IsKeyTickTime(u) ==>
      exists j :: 0 <= j < |ws| && ws[j].key == ApiKey && ws[j].at == u
    ensures Lookup(Replay(map[], ws), t, ApiKey).Some?
  {
    KeyTicksAtMost55MinutesApart(t);
    var last := LastKeyTick(t);
    if start < last {
      var j :| 0 <= j < |ws| && ws[j].key == ApiKey && ws[j].at == last;
      CoveredKeyIsCached(map[], ws, ApiKey, KeyTtl, j, t);
    } else {
      CoveredKeyIsCached(map[], ws, ApiKey, KeyTtl, 0, t);
    }
  }

  /** Likewise a listed fund stays cached from its first successful tick on, as
      long as every later tick of its job succeeds: the job runs each second and
      the TTL is two. */
  lemma {:induction false} FundNeverExpires(ws: seq<Write>, code: string, first: int, t: int)
    requires InTimeOrder(ws)
    requires forall j :: 0 <= j < |ws| ==> ws[j].at <= t
    requires forall j :: 0 <= j < |ws| && ws[j].key == code ==> ws[j].ttl == FundTtl
    requires exists j :: 0 <= j < |ws| && ws[j].key == code && ws[j].at == first
    requires first <= t
    requires forall u :: first < u <= t && IsFundTickTime(u) ==>
      exists j :: 0 <= j < |ws| && ws[j].key == code && ws[j].at == u
    ensures Lookup(Replay(map[], ws), t, code).Some?
  {
    FundTicksOneSecondApart(t);
    var last := LastFundTick(t);
    var j :| 0 <= j < |ws| && ws[j].key == code && ws[j].at == (if first < last then last else first);
    CoveredKeyIsCached(map[], ws, code, FundTtl, j, t);
  }

  /** When `"ihs_apikey"` is an allow-listed code, one successful fund tick right
      after startup leaves the API key absent two seconds later. */
  lemma KeyLostToFundOfSameName(es: Entries, start: int, key: Json, data: Json)
    ensures var b := Startup(es, start, [ApiKey], Ok(key));
      b.Running? &&
      Lookup(FundTick(b.entries, start + 1000, ApiKey, Ok(data)).entries, start + 3001, ApiKey) == None
  {
  }
}
