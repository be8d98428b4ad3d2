/** `DlsiteClient`: the builder and the cached, rate-limited, retrying `get`.
    The transport, the wall clock and the cache's clock are inputs (a
    `FetchWorld`); sleeps are returned as durations instead of performed. */
module Client {
  import opened Errors
  import opened Retry
  import opened Cache

  /** The base URL of `DlsiteClient::default`. */
  const DefaultBaseUrl: string := "https://www.dlsite.com/maniax"

  /** The rate limiter's minimum spacing, in milliseconds. */
  const MinIntervalMs: nat := 500

  /** The message of the error synthesised for a 429 response. */
  const TooManyRequests: string := "Too many requests, please retry later"

  type ResponseCache = GenericCache<string>

  // ---------------------------------------------------------------------------
  // Builder

  datatype DlsiteClientBuilder = DlsiteClientBuilder(
    baseUrl: string,
    poolMaxIdlePerHost: nat,
    timeoutMs: nat,
    cacheCapacity: nat,
    cacheTtlMs: nat,
    retryConfig: RetryConfig)

  /** `DlsiteClientBuilder::new`: pool 10, timeout 30 s, cache 100 entries for 1 h, default retries. */
  function NewBuilder(baseUrl: string): (b: DlsiteClientBuilder)
    ensures b.baseUrl == baseUrl && b.poolMaxIdlePerHost == 10 && b.timeoutMs == 30_000
    ensures b.cacheCapacity == 100 && b.cacheTtlMs == 3_600_000 && b.retryConfig == Retry.Default()
  {
    DlsiteClientBuilder(baseUrl, 10, 30_000, 100, 3_600_000, Retry.Default())
  }

  /** `pool_max_idle_per_host`: sets that field and no other. */
  function WithPoolMaxIdlePerHost(b: DlsiteClientBuilder, max: nat): (r: DlsiteClientBuilder)
    ensures r.poolMaxIdlePerHost == max && r.(poolMaxIdlePerHost := b.poolMaxIdlePerHost) == b
  {
    b.(poolMaxIdlePerHost := max)
  }

  /** `timeout`: sets that field and no other. */
  function WithTimeout(b: DlsiteClientBuilder, timeoutMs: nat): (r: DlsiteClientBuilder)
    ensures r.timeoutMs == timeoutMs && r.(timeoutMs := b.timeoutMs) == b
  {
    b.(timeoutMs := timeoutMs)
  }

  /** `cache`: sets the capacity and the TTL together and nothing else. */
  function WithCache(b: DlsiteClientBuilder, capacity: nat, ttlMs: nat): (r: DlsiteClientBuilder)
    ensures r.cacheCapacity == capacity && r.cacheTtlMs == ttlMs
    ensures r.(cacheCapacity := b.cacheCapacity, cacheTtlMs := b.cacheTtlMs) == b
  {
    b.(cacheCapacity := capacity, cacheTtlMs := ttlMs)
  }

  /** `retry_config`: replaces the retry configuration and nothing else. */
  function WithRetryConfig(b: DlsiteClientBuilder, config: RetryConfig): (r: DlsiteClientBuilder)
    ensures r.retryConfig == config && r.(retryConfig := b.retryConfig) == b
  {
    b.(retryConfig := config)
  }

  /** Setters of different fields commute, and a later call of the same setter wins. */
  lemma BuilderSetters(b: DlsiteClientBuilder, max: nat, t1: nat, t2: nat, config: RetryConfig)
    ensures WithTimeout(WithPoolMaxIdlePerHost(b, max), t1) == WithPoolMaxIdlePerHost(WithTimeout(b, t1), max)
    ensures WithRetryConfig(WithTimeout(b, t1), config) == WithTimeout(WithRetryConfig(b, config), t1)
    ensures WithTimeout(WithTimeout(b, t1), t2) == WithTimeout(b, t2)
  {
  }

  // ---------------------------------------------------------------------------
  // Rate limiting and the per-attempt decision

  /** The pause before a dispatch when the last stamp is `last` and the clock reads `now`:
      the stored time is never later than needed, `elapsed` saturates at 0. */
  function RateLimitWait(last: nat, now: nat): (w: nat)
    ensures w <= MinIntervalMs
    ensures w == 0 <==> last + MinIntervalMs <= now
    ensures last <= now ==> now + w >= last + MinIntervalMs
    ensures last <= now < last + MinIntervalMs ==> now + w == last + MinIntervalMs
    ensures last > now ==> w == MinIntervalMs
  {
    var elapsed := if now >= last then now - last else 0;
    if elapsed < MinIntervalMs then MinIntervalMs - elapsed else 0
  }

  /** What one dispatch produced: a transport error, or a response with its
      status and its body (None when reading the body failed). */
  datatype Outcome = TransportError | Response(status: u16, body: Option<string>)

  /** `StatusCode::is_success`. */
  predicate IsSuccess(status: u16)
  {
    200 <= status <= 299
  }

  /** After one attempt the loop either backs off and goes on, remembering the
      error, or returns. */
  datatype Step = Continue(err: DlsiteError) | Return(result: Result<string>)

  /** The shared retry-or-return test of lines 163, 173 and 191. */
  function Decide(c: RetryConfig, attempt: u32, err: DlsiteError): (s: Step)
    ensures s.Continue? <==> attempt < c.maxRetries && IsRetryable(c, err)
    ensures s.Continue? ==> s.err == err
    ensures s.Return? ==> s.result == Err(err)
  {
    if attempt < c.maxRetries && IsRetryable(c, err) then Continue(err) else Return(Err(err))
  }

  /** Classification of one attempt's outcome (the body of the `match` on `send`). */
  function AttemptStep(c: RetryConfig, attempt: u32, o: Outcome): (s: Step)
    ensures s.Continue? ==> attempt < c.maxRetries && IsRetryable(c, s.err)
    ensures s.Return? && s.result.Ok? <==> o.Response? && IsSuccess(o.status) && o.body.Some?
    ensures s.Return? && s.result.Ok? ==> s.result.value == o.body.value
  {
    match o
    case TransportError => Decide(c, attempt, Reqwest)
    case Response(status, body) =>
      if status == 429 then Decide(c, attempt, RateLimit(TooManyRequests))
      else if !IsSuccess(status) then Decide(c, attempt, HttpStatus(status))
      else
        match body
        case None => Return(Err(Reqwest))
        case Some(text) => Return(Ok(text))
  }

  /** On the last attempt every branch returns. */
  lemma LastAttemptReturns(c: RetryConfig, o: Outcome)
    ensures AttemptStep(c, c.maxRetries, o).Return?
  {
  }

  /** A transport error is returned at once as `Reqwest`, whatever the attempt. */
  lemma TransportErrorIsFinal(c: RetryConfig, attempt: u32)
    ensures AttemptStep(c, attempt, TransportError) == Return(Err(Reqwest))
  {
  }

  /** A body that cannot be read is returned at once as `Reqwest`. */
  lemma BodyErrorIsFinal(c: RetryConfig, attempt: u32, status: u16)
    requires IsSuccess(status)
    ensures AttemptStep(c, attempt, Response(status, None)) == Return(Err(Reqwest))
  {
  }

  /** 429 becomes `RateLimit`, retried exactly while attempts remain. */
  lemma TooManyRequestsRetried(c: RetryConfig, attempt: u32, body: Option<string>)
    ensures AttemptStep(c, attempt, Response(429, body)) ==
      if attempt < c.maxRetries then Continue(RateLimit(TooManyRequests))
      else Return(Err(RateLimit(TooManyRequests)))
  {
  }

  /** Any other failure status becomes `HttpStatus`, retried only when it is 5xx and
      attempts remain; so a 404 ends the call on its first dispatch. */
  lemma FailureStatusRetried(c: RetryConfig, attempt: u32, status: u16, body: Option<string>)
    requires status != 429 && !IsSuccess(status)
    ensures AttemptStep(c, attempt, Response(status, body)) ==
      if attempt < c.maxRetries && status >= 500 then Continue(HttpStatus(status))
      else Return(Err(HttpStatus(status)))
    ensures AttemptStep(c, attempt, Response(404, body)) == Return(Err(HttpStatus(404)))
  {
  }

  /** The rate limiter stamps the clock reading taken before its pause, so two
      consecutive dispatches can be closer than the minimum interval: stamp 800,
      clock 1000 pauses 300 ms and dispatches at 1300; the next attempt reads
      1300, pauses 200 ms and dispatches at 1500. */
  lemma SpacingNotGuaranteed()
    ensures var w1 := RateLimitWait(800, 1000);
      var w2 := RateLimitWait(1000, 1300);
      w1 == 300 && w2 == 200 && (1300 + w2) - (1000 + w1) < MinIntervalMs
  {
  }

  /** Clock readings and transport outcomes one call may consume. The wall
      clock is read once per attempt; the cache's clock once for the lookup and
      once for the insert. */
  datatype FetchWorld = FetchWorld(wall: seq<nat>, outcomes: seq<Outcome>, lookupAt: nat, storeAt: nat)

  /** The world has a clock reading and an outcome for every possible attempt. */
  predicate Covers(c: RetryConfig, w: FetchWorld)
  {
    |w.wall| > c.maxRetries && |w.outcomes| > c.maxRetries
  }

  /** What the retry loop of one cache miss produced: the result, the
      rate-limit pause before each dispatch, the backoff after each failed
      attempt, and the stamp it left behind. */
  datatype Run = Run(result: Result<string>, waits: seq<nat>, backoffs: seq<nat>, stamp: nat)

  /** The retry loop from attempt `attempt` on, the last stamp being `stamp`:
      read the clock, pause as the rate limiter says, stamp the reading,
      dispatch, and either back off and go on or return. */
  function RunFrom(c: RetryConfig, w: FetchWorld, stamp: nat, attempt: nat): (r: Run)
    requires Covers(c, w) && attempt <= c.maxRetries
    decreases c.maxRetries - attempt
    ensures 1 <= |r.waits| <= c.maxRetries + 1 - attempt && |r.backoffs| == |r.waits| - 1
  {
    var now := w.wall[attempt];
    var wait := RateLimitWait(stamp, now);
    match AttemptStep(c, attempt, w.outcomes[attempt])
    case Return(result) => Run(result, [wait], [], now)
    case Continue(_) =>
      var rest := RunFrom(c, w, now, attempt + 1);
      Run(rest.result, [wait] + rest.waits, [CalculateDelay(c, attempt)] + rest.backoffs, rest.stamp)
  }

  /** The loop so far (`waits`, `backoffs`) followed by the rest of it. */
  function Prefixed(waits: seq<nat>, backoffs: seq<nat>, rest: Run): Run
  {
    Run(rest.result, waits + rest.waits, backoffs + rest.backoffs, rest.stamp)
  }

  /** One more attempt moves from the rest of the loop to what has been done. */
  lemma PrefixedStep(waits: seq<nat>, backoffs: seq<nat>, wait: nat, backoff: nat, rest: Run)
    ensures Prefixed(waits, backoffs, Run(rest.result, [wait] + rest.waits, [backoff] + rest.backoffs, rest.stamp))
      == Prefixed(waits + [wait], backoffs + [backoff], rest)
  {
    assert waits + ([wait] + rest.waits) == (waits + [wait]) + rest.waits;
    assert backoffs + ([backoff] + rest.backoffs) == (backoffs + [backoff]) + rest.backoffs;
  }

  /** The loop started at attempt `k` dispatches at least once and at most
      the remaining budget; it backs off once between consecutive dispatches;
      the last dispatch decides the result and its clock reading is the final stamp. */
  lemma {:induction false} RunFromShape(c: RetryConfig, w: FetchWorld, stamp: nat, k: nat, run: Run)
    requires Covers(c, w) && k <= c.maxRetries && run == RunFrom(c, w, stamp, k)
    decreases c.maxRetries - k
    ensures 1 <= |run.waits| <= c.maxRetries + 1 - k && |run.backoffs| == |run.waits| - 1
    ensures AttemptStep(c, k + |run.waits| - 1, w.outcomes[k + |run.waits| - 1]) == Return(run.result)
    ensures run.stamp == w.wall[k + |run.waits| - 1]
  {
    match AttemptStep(c, k, w.outcomes[k])
    case Return(_) =>
    case Continue(_) =>
      var rest := RunFrom(c, w, w.wall[k], k + 1);
      RunFromShape(c, w, w.wall[k], k + 1, rest);
  }

  /** Attempt `a` failed in a retryable way and was followed by the
      exponential backoff for its attempt number. */
  predicate RetriedAt(c: RetryConfig, w: FetchWorld, a: int, backoff: nat)
  {
    0 <= a < c.maxRetries && a < |w.outcomes| &&
    AttemptStep(c, a, w.outcomes[a]).Continue? && backoff == CalculateDelay(c, a)
  }

  /** Every dispatch but the last failed in a retryable way and was followed
      by the exponential backoff for its attempt number. */
  lemma {:induction false} RunFromRetries(c: RetryConfig, w: FetchWorld, stamp: nat, k: nat, run: Run)
    requires Covers(c, w) && k <= c.maxRetries && run == RunFrom(c, w, stamp, k)
    decreases c.maxRetries - k
    ensures forall i :: 0 <= i < |run.backoffs| ==> RetriedAt(c, w, k + i, run.backoffs[i])
  {
    match AttemptStep(c, k, w.outcomes[k])
    case Return(_) =>
    case Continue(_) =>
      var rest := RunFrom(c, w, w.wall[k], k + 1);
      RunFromRetries(c, w, w.wall[k], k + 1, rest);
      assert run.backoffs == [CalculateDelay(c, k)] + rest.backoffs;
      forall i | 0 <= i < |run.backoffs|
        ensures RetriedAt(c, w, k + i, run.backoffs[i])
      {
        if i > 0 {
          assert run.backoffs[i] == rest.backoffs[i - 1];
          assert RetriedAt(c, w, (k + 1) + (i - 1), rest.backoffs[i - 1]);
        }
      }
  }

  /** The pause before dispatch `a` of a loop entered with stamp `stamp`: the
      rate limiter's for the stamp left by the previous dispatch, which is that
      dispatch's clock reading, not its end. */
  predicate WaitedAt(w: FetchWorld, stamp: nat, k: nat, a: int, wait: nat)
  {
    k <= a < |w.wall| && wait == RateLimitWait(if a == k then stamp else w.wall[a - 1], w.wall[a])
  }

  /** Each pause is the rate limiter's for the stamp left by the previous dispatch. */
  lemma {:induction false} RunFromWaits(c: RetryConfig, w: FetchWorld, stamp: nat, k: nat, run: Run)
    requires Covers(c, w) && k <= c.maxRetries && run == RunFrom(c, w, stamp, k)
    decreases c.maxRetries - k
    ensures forall i :: 0 <= i < |run.waits| ==> WaitedAt(w, stamp, k, k + i, run.waits[i])
  {
    match AttemptStep(c, k, w.outcomes[k])
    case Return(_) =>
    case Continue(_) =>
      var rest := RunFrom(c, w, w.wall[k], k + 1);
      RunFromWaits(c, w, w.wall[k], k + 1, rest);
      assert run.waits == [RateLimitWait(stamp, w.wall[k])] + rest.waits;
      forall i | 0 <= i < |run.waits|
        ensures WaitedAt(w, stamp, k, k + i, run.waits[i])
      {
        if i > 0 {
          assert run.waits[i] == rest.waits[i - 1];
          assert WaitedAt(w, w.wall[k], k + 1, (k + 1) + (i - 1), rest.waits[i - 1]);
        }
      }
  }

  // ---------------------------------------------------------------------------
  // `get` on values

  /** The parts of a client that `get` reads and never changes. */
  datatype ClientConfig = ClientConfig(baseUrl: string, retry: RetryConfig, capacity: nat, ttl: nat)

  /** The parts `get` changes: the response cache's recency list and the rate limiter's stamp. */
  datatype ClientState = ClientState(entries: seq<Entry<string>>, stamp: nat)

  /** The response cache has room and holds no more than its capacity. */
  predicate Fits(k: ClientConfig, s: ClientState)
  {
    0 < k.capacity && |s.entries| <= k.capacity
  }

  datatype GetOutcome = GetOutcome(result: Result<string>, state: ClientState)

  /** `get` as a function of the state it starts from: a live cache entry for
      the URL answers at once; otherwise the retry loop runs, stamping the
      limiter, and a success is cached under the URL until `ttl` after the
      store instant. */
  function GetSpec(k: ClientConfig, s: ClientState, path: string, w: FetchWorld): (g: GetOutcome)
    requires Fits(k, s) && Covers(k.retry, w)
    ensures Fits(k, g.state)
    ensures g.state.stamp != s.stamp ==> LookupResult(s.entries, k.baseUrl + path, w.lookupAt).None?
    ensures g.result.Err? ==> LookupResult(s.entries, k.baseUrl + path, w.lookupAt).None?
  {
    var url := k.baseUrl + path;
    var hit := LookupResult(s.entries, url, w.lookupAt);
    var entries := AfterLookup(s.entries, url, w.lookupAt);
    if hit.Some? then GetOutcome(Ok(hit.value), ClientState(entries, s.stamp))
    else
      var run := RunFrom(k.retry, w, s.stamp, 0);
      GetOutcome(run.result, ClientState(
        if run.result.Ok? then Put(entries, k.capacity, Entry(url, run.result.value, w.storeAt + k.ttl)) else entries,
        run.stamp))
  }

  lemma GetSpecOnHit(k: ClientConfig, s: ClientState, path: string, w: FetchWorld)
    requires Fits(k, s) && Covers(k.retry, w)
    requires LookupResult(s.entries, k.baseUrl + path, w.lookupAt).Some?
    ensures GetSpec(k, s, path, w) == GetOutcome(
      Ok(LookupResult(s.entries, k.baseUrl + path, w.lookupAt).value),
      ClientState(AfterLookup(s.entries, k.baseUrl + path, w.lookupAt), s.stamp))
  {
  }

  lemma GetSpecOnMiss(k: ClientConfig, s: ClientState, path: string, w: FetchWorld, run: Run)
    requires Fits(k, s) && Covers(k.retry, w)
    requires LookupResult(s.entries, k.baseUrl + path, w.lookupAt).None?
    requires run == RunFrom(k.retry, w, s.stamp, 0)
    ensures var entries := AfterLookup(s.entries, k.baseUrl + path, w.lookupAt);
      GetSpec(k, s, path, w) == GetOutcome(run.result, ClientState(
        if run.result.Ok? then Put(entries, k.capacity, Entry(k.baseUrl + path, run.result.value, w.storeAt + k.ttl))
        else entries,
        run.stamp))
  {
  }

  /** A cache miss, assembled from its parts, is what `GetSpec` says. */
  lemma GetMissParts(k: ClientConfig, s: ClientState, path: string, w: FetchWorld, run: Run, after: ClientState)
    requires Fits(k, s) && Covers(k.retry, w)
    requires LookupResult(s.entries, k.baseUrl + path, w.lookupAt).None?
    requires run == RunFrom(k.retry, w, s.stamp, 0) && after.stamp == run.stamp
    requires var entries := AfterLookup(s.entries, k.baseUrl + path, w.lookupAt);
      after.entries == if run.result.Ok? then Put(entries, k.capacity, Entry(k.baseUrl + path, run.result.value, w.storeAt + k.ttl))
        else entries
    ensures GetOutcome(run.result, after) == GetSpec(k, s, path, w)
  {
    GetSpecOnMiss(k, s, path, w, run);
  }

  /** The instant up to which a successful `get` stays cached: the stored
      entry's own expiry on a hit, `ttl` after the store instant on a miss. */
  function CachedUntil(k: ClientConfig, s: ClientState, path: string, w: FetchWorld): int
  {
    var url := k.baseUrl + path;
    if LookupResult(s.entries, url, w.lookupAt).Some? then Find(s.entries, url).value.expiresAt
    else w.storeAt + k.ttl
  }

  /** After a successful `get` the URL's entry answers every lookup up to `CachedUntil`. */
  lemma CachedAfterGet(k: ClientConfig, s: ClientState, path: string, w: FetchWorld, t: int)
    requires Fits(k, s) && DistinctKeys(s.entries) && Covers(k.retry, w)
    requires GetSpec(k, s, path, w).result.Ok? && t <= CachedUntil(k, s, path, w)
    ensures var g := GetSpec(k, s, path, w);
      LookupResult(g.state.entries, k.baseUrl + path, t) == Some(g.result.value) && DistinctKeys(g.state.entries)
  {
    var url := k.baseUrl + path;
    var after := AfterLookup(s.entries, url, w.lookupAt);
    AfterLookupKeepsDistinct(s.entries, url, w.lookupAt);
    if LookupResult(s.entries, url, w.lookupAt).Some? {
      GetSpecOnHit(k, s, path, w);
      FindLast(after, Find(s.entries, url).value);
    } else {
      var run := RunFrom(k.retry, w, s.stamp, 0);
      GetSpecOnMiss(k, s, path, w, run);
      InsertThenGet(after, k.capacity, url, run.result.value, w.storeAt, k.ttl, t);
      PutKeepsValid(after, k.capacity, Entry(url, run.result.value, w.storeAt + k.ttl));
    }
  }

  /** A successful `get` is cached: repeating it no later than `CachedUntil`
      returns the same body without a dispatch, so the stamp stays as it was. */
  lemma GetServedFromCache(k: ClientConfig, s: ClientState, path: string, w1: FetchWorld, w2: FetchWorld)
    requires Fits(k, s) && DistinctKeys(s.entries) && Covers(k.retry, w1) && Covers(k.retry, w2)
    requires GetSpec(k, s, path, w1).result.Ok?
    requires w2.lookupAt <= CachedUntil(k, s, path, w1)
    ensures var g1 := GetSpec(k, s, path, w1);
      var g2 := GetSpec(k, g1.state, path, w2);
      g2.result == g1.result && g2.state.stamp == g1.state.stamp && DistinctKeys(g2.state.entries)
  {
    var g1 := GetSpec(k, s, path, w1);
    CachedAfterGet(k, s, path, w1, w2.lookupAt);
    GetSpecOnHit(k, g1.state, path, w2);
    AfterLookupKeepsDistinct(g1.state.entries, k.baseUrl + path, w2.lookupAt);
  }

  // ---------------------------------------------------------------------------
  // The client

  class DlsiteClient {
    const baseUrl: string
    /** Milliseconds of the last dispatch (`AtomicU64`, initially 0). */
    var lastRequestTime: nat
    const cache: ResponseCache
    var retryConfig: RetryConfig

    ghost predicate Valid()
      reads this, cache
    {
      cache.Valid()
    }

    ghost function Config(): ClientConfig
      reads this, cache
    {
      ClientConfig(baseUrl, retryConfig, cache.capacity, cache.ttl)
    }

    ghost function State(): ClientState
      reads this, cache
    {
      ClientState(cache.entries, lastRequestTime)
    }

    /** `DlsiteClientBuilder::build`; `ResponseCache::new` panics on capacity 0. */
    constructor Build(b: DlsiteClientBuilder)
      requires b.cacheCapacity > 0
      ensures Valid() && fresh(cache)
      ensures baseUrl == b.baseUrl && lastRequestTime == 0 && retryConfig == b.retryConfig
      ensures cache.entries == [] && cache.capacity == b.cacheCapacity && cache.ttl == b.cacheTtlMs
    {
      baseUrl := b.baseUrl;
      lastRequestTime := 0;
      cache := new GenericCache(b.cacheCapacity, b.cacheTtlMs);
      retryConfig := b.retryConfig;
    }

    /** `DlsiteClient::new(base_url)`: a builder with every default. */
    constructor (baseUrl: string)
      ensures Valid() && fresh(cache)
      ensures this.baseUrl == baseUrl && lastRequestTime == 0 && retryConfig == Retry.Default()
      ensures cache.entries == [] && cache.capacity == 100 && cache.ttl == 3_600_000
    {
      var b := NewBuilder(baseUrl);
      this.baseUrl := b.baseUrl;
      lastRequestTime := 0;
      cache := new GenericCache(b.cacheCapacity, b.cacheTtlMs);
      retryConfig := b.retryConfig;
    }

    /** `DlsiteClient::default`: `new` on the base URL of the adult-works section. */
    constructor Default()
      ensures Valid() && fresh(cache)
      ensures baseUrl == DefaultBaseUrl && lastRequestTime == 0 && retryConfig == Retry.Default()
      ensures cache.entries == [] && cache.capacity == 100 && cache.ttl == 3_600_000
    {
      var b := NewBuilder(DefaultBaseUrl);
      baseUrl := b.baseUrl;
      lastRequestTime := 0;
      cache := new GenericCache(b.cacheCapacity, b.cacheTtlMs);
      retryConfig := b.retryConfig;
    }

    /** `get(path)`. Returns the result, the rate-limit pause before each
        dispatch (0 when none) and the backoff after each failed attempt. */
    method Get(path: string, w: FetchWorld) returns (r: Result<string>, waits: seq<nat>, backoffs: seq<nat>)
      requires Valid() && Covers(retryConfig, w)
      modifies this, cache
      ensures Valid() && retryConfig == old(retryConfig)
      ensures GetOutcome(r, State()) == GetSpec(Config(), old(State()), path, w)
      ensures LookupResult(old(cache.entries), baseUrl + path, w.lookupAt).Some? ==> waits == [] && backoffs == []
      ensures LookupResult(old(cache.entries), baseUrl + path, w.lookupAt).None? ==>
        Run(r, waits, backoffs, lastRequestTime) == RunFrom(retryConfig, w, old(lastRequestTime), 0)
    {
      var url := baseUrl + path;
      ghost var k, start := Config(), State();
      var cached := cache.Get(url, w.lookupAt);
      if cached.Some? {
        GetSpecOnHit(k, start, path, w);
        return Ok(cached.value), [], [];
      }
      r, waits, backoffs := Dispatch(url, w, k.retry, start.stamp);
      Store(url, r, w.storeAt, k, cache.entries);
      GetMissParts(k, start, path, w, Run(r, waits, backoffs, lastRequestTime), State());
    }

    /** After the retry loop: a successful body is cached before it is returned (line 185). */
    method Store(url: string, r: Result<string>, storeAt: nat, ghost k: ClientConfig, ghost entries: seq<Entry<string>>)
      requires cache.Valid() && cache.capacity == k.capacity && cache.ttl == k.ttl && cache.entries == entries
      modifies cache
      ensures cache.Valid()
      ensures cache.entries == if r.Ok? then Put(entries, k.capacity, Entry(url, r.value, storeAt + k.ttl)) else entries
    {
      if r.Ok? {
        cache.Insert(url, r.value, storeAt);
      }
    }

    /** The retry loop of `get`: each attempt waits for the rate limiter,
        dispatches, and either returns or backs off before the next one. */
    method Dispatch(url: string, w: FetchWorld, ghost rc: RetryConfig, ghost stamp: nat)
      returns (r: Result<string>, waits: seq<nat>, backoffs: seq<nat>)
      requires retryConfig == rc && lastRequestTime == stamp && Covers(rc, w)
      modifies this
      ensures retryConfig == rc
      ensures Run(r, waits, backoffs, lastRequestTime) == RunFrom(rc, w, stamp, 0)
    {
      var lastError: Option<DlsiteError> := None;
      waits, backoffs := [], [];
      for attempt := 0 to retryConfig.maxRetries + 1
        invariant retryConfig == old(retryConfig) && attempt <= retryConfig.maxRetries
        invariant RunFrom(retryConfig, w, old(lastRequestTime), 0) ==
          Prefixed(waits, backoffs, RunFrom(retryConfig, w, lastRequestTime, attempt))
      {
        var now := w.wall[attempt];
        ghost var before, waitsBefore := lastRequestTime, waits;
        waits := waits + [RateLimitWait(lastRequestTime, now)];
        lastRequestTime := now;
        var step := AttemptStep(retryConfig, attempt, w.outcomes[attempt]);
        match step
        case Continue(err) =>
          lastError := Some(err);
          PrefixedStep(waitsBefore, backoffs, RateLimitWait(before, now), CalculateDelay(retryConfig, attempt),
            RunFrom(retryConfig, w, now, attempt + 1));
          backoffs := backoffs + [CalculateDelay(retryConfig, attempt)];
        case Return(result) =>
          assert backoffs + [] == backoffs;
          return result, waits, backoffs;
      }
      // Line 203: every attempt up to `max_retries` returned, so this is never reached.
      assert false;
      r := Err(lastError.GetOr(Parse("Unknown error")));
    }

    /** `clear_cache`. */
    method ClearCache()
      requires Valid()
      modifies cache
      ensures Valid() && cache.entries == []
    {
      cache.Clear();
    }

    /** `cache_size`. */
    method CacheSize() returns (n: nat)
      requires Valid()
      ensures n == cache.Len() && n <= cache.capacity
    {
      n := cache.Len();
    }

    /** `set_retry_config`. */
    method SetRetryConfig(config: RetryConfig)
      modifies this
      ensures retryConfig == config && lastRequestTime == old(lastRequestTime)
    {
      retryConfig := config;
    }
  }
}
