/** The JSON:API access layer (composables/useApi.ts): a response cache whose
    entries expire five minutes after they are stored (checked lazily, on
    lookup), a table of pending reads that lets a second read of the same key
    join the first instead of calling the transport again, a retry policy with
    exponential backoff for server errors, and cache invalidation on writes.

    The clock is a parameter (`now`), the transport is a script of replies it
    will give in order, and the asynchronous `fetchResource` is split into a
    synchronous start and a later completion. */
module Api {
  import opened Wrappers
  import Json

  /** CACHE_TTL: five minutes in milliseconds. */
  const CacheTtl: int := 5 * 60 * 1000

  /** fetchWithRetry's defaults, and the retry count postResource passes. */
  const DefaultRetries: int := 3
  const DefaultDelay: int := 1000
  const PostRetries: int := 2

  /** Query parameters, in the object's own-property order, which is the
      order `JSON.stringify` writes them in. */
  type Params = seq<(string, string)>

  // ---------------------------------------------------------------------------
  // Cache keys

  /** getCacheKey: the URL, followed by the serialised parameters when there are any. */
  function CacheKey(url: string, params: Option<Params>): (k: string)
    ensures url <= k
    ensures params.None? <==> k == url
  {
    url + if params.Some? then Json.StringObject(params.value) else ""
  }

  /** The same URL with different parameters never gives the same key. */
  lemma CacheKeyParamsInjective(url: string, p: Params, q: Params)
    requires CacheKey(url, Some(p)) == CacheKey(url, Some(q))
    ensures p == q
  {
    var k := CacheKey(url, Some(p));
    assert k[|url|..] == Json.StringObject(p);
    assert CacheKey(url, Some(q))[|url|..] == Json.StringObject(q);
    Json.StringObjectInjective(p, q);
  }

  // ---------------------------------------------------------------------------
  // The cache table

  datatype CacheEntry = CacheEntry(data: Json.Value, timestamp: int)

  type Cache = map<string, CacheEntry>

  predicate Expired(e: CacheEntry, now: int) {
    now - e.timestamp > CacheTtl
  }

  /** What getFromCache returns: the stored data while the entry is no older than the TTL. */
  function Lookup(cache: Cache, key: string, now: int): (r: Option<Json.Value>)
    ensures r.Some? <==> key in cache && now - cache[key].timestamp <= CacheTtl
    ensures r.Some? ==> r.value == cache[key].data
  {
    if key in cache && !Expired(cache[key], now) then Some(cache[key].data) else None
  }

  /** The table after getFromCache: an expired entry for the key is deleted, nothing else changes. */
  function AfterLookup(cache: Cache, key: string, now: int): (c: Cache)
    ensures key in c <==> Lookup(cache, key, now).Some?
    ensures key in c ==> c[key] == cache[key]
    ensures forall k :: k != key ==> (k in c <==> k in cache)
    ensures forall k :: k in c && k != key ==> c[k] == cache[k]
  {
    if key in cache && Expired(cache[key], now) then cache - {key} else cache
  }

  /** A stored value is served until exactly TTL milliseconds after it was saved, and not after. */
  lemma SavedThenLookup(cache: Cache, key: string, data: Json.Value, savedAt: int, now: int)
    ensures Lookup(cache[key := CacheEntry(data, savedAt)], key, now)
         == if now <= savedAt + CacheTtl then Some(data) else None
  {
  }

  /** After clearing the whole table every lookup misses. */
  lemma ClearedMisses(key: string, now: int)
    ensures Lookup(map[], key, now) == None
  {
  }

  // ---------------------------------------------------------------------------
  // Retry with exponential backoff

  /** A rejected request: `error.statusCode`, absent when the failure is not an HTTP status. */
  datatype Failure = Failure(statusCode: Option<int>)

  /** One transport reply: the response body or the error it was rejected with. */
  type Reply = Result<Json.Value, Failure>

  /** The retry condition of fetchWithRetry. */
  predicate ShouldRetry(retries: int, f: Failure) {
    retries > 0 && f.statusCode.Some? && f.statusCode.value >= 500
  }

  /** The reply of the i-th transport call; once the script is exhausted the
      transport fails without a status code. */
  function Attempt(script: seq<Reply>, i: nat): Reply {
    if i < |script| then script[i] else Err(Failure(None))
  }

  function Pow2(n: nat): (p: nat)
    ensures p >= 1
  {
    if n == 0 then 1 else 2 * Pow2(n - 1)
  }

  /** The waits of n retries starting at `delay`: each twice the one before. */
  function Backoff(delay: int, n: nat): seq<int>
    decreases n
  {
    if n == 0 then [] else [delay] + Backoff(delay * 2, n - 1)
  }

  /** The i-th wait is the first one times 2^i. */
  lemma {:induction false} BackoffDoubles(delay: int, n: nat)
    ensures |Backoff(delay, n)| == n
    ensures forall i :: 0 <= i < n ==> Backoff(delay, n)[i] == delay * Pow2(i)
    decreases n
  {
    if n > 0 {
      BackoffDoubles(delay * 2, n - 1);
      var b := Backoff(delay, n);
      forall i | 0 < i < n ensures b[i] == delay * Pow2(i) {
        assert b[i] == Backoff(delay * 2, n - 1)[i - 1];
        assert (delay * 2) * Pow2(i - 1) == delay * (2 * Pow2(i - 1));
      }
    }
  }

  function MaxAttempts(retries: int): nat {
    if retries > 0 then retries + 1 else 1
  }

  function Min(a: nat, b: nat): nat {
    if a < b then a else b
  }

  /** What one fetchWithRetry call did: the final reply, how many transport
      calls it made, the waits between them, and the replies left unread. */
  datatype RetryRun = RetryRun(result: Reply, attempts: nat, delays: seq<int>, rest: seq<Reply>)

  /** fetchWithRetry(fetchFn, retries, delay) against a scripted transport. */
  function FetchWithRetry(script: seq<Reply>, retries: int, delay: int): (run: RetryRun)
    ensures 1 <= run.attempts <= MaxAttempts(retries)
    ensures run.delays == Backoff(delay, run.attempts - 1)
    ensures run.rest == script[Min(run.attempts, |script|)..]
    decreases if retries > 0 then retries else 0
  {
    var reply := Attempt(script, 0);
    var rest := if |script| == 0 then [] else script[1..];
    if reply.Err? && ShouldRetry(retries, reply.error) then
      var next := FetchWithRetry(rest, retries - 1, delay * 2);
      RetryRun(next.result, next.attempts + 1, [delay] + next.delays, next.rest)
    else
      RetryRun(reply, 1, [], rest)
  }

  /** Every call but the last failed with a status of at least 500 while
      retries remained; the result is the last call's reply, unchanged; and
      the run stopped because that reply succeeded or may not be retried. */
  lemma RetryTrace(script: seq<Reply>, retries: int, delay: int)
    ensures var run := FetchWithRetry(script, retries, delay);
      && (forall i :: 0 <= i < run.attempts - 1 ==>
            Attempt(script, i).Err? && ShouldRetry(retries - i, Attempt(script, i).error))
      && run.result == Attempt(script, run.attempts - 1)
      && (run.result.Ok? || !ShouldRetry(retries - (run.attempts - 1), run.result.error))
  {
    var run := FetchWithRetry(script, retries, delay);
    forall i | 0 <= i < run.attempts - 1
      ensures Attempt(script, i).Err? && ShouldRetry(retries - i, Attempt(script, i).error)
    {
      RetriedBefore(script, retries, delay, i);
    }
    RetryResult(script, retries, delay);
  }

  /** Each call before the last was retried. */
  lemma {:induction false} RetriedBefore(script: seq<Reply>, retries: int, delay: int, i: nat)
    requires i < FetchWithRetry(script, retries, delay).attempts - 1
    ensures Attempt(script, i).Err? && ShouldRetry(retries - i, Attempt(script, i).error)
    decreases i
  {
    if i > 0 {
      RetryStep(script, retries, delay);
      RetriedBefore(script[1..], retries - 1, delay * 2, i - 1);
      AttemptTail(script, i);
    }
  }

  /** The result is the last call's reply, and that reply ends the retries. */
  lemma {:induction false} RetryResult(script: seq<Reply>, retries: int, delay: int)
    ensures var run := FetchWithRetry(script, retries, delay);
      && run.result == Attempt(script, run.attempts - 1)
      && (run.result.Ok? || !ShouldRetry(retries - (run.attempts - 1), run.result.error))
    decreases if retries > 0 then retries else 0
  {
    var reply := Attempt(script, 0);
    if reply.Err? && ShouldRetry(retries, reply.error) {
      RetryResult(script[1..], retries - 1, delay * 2);
      RetryStep(script, retries, delay);
      AttemptTail(script, FetchWithRetry(script, retries, delay).attempts - 1);
    }
  }

  /** A retried call makes one transport call more than the retry it starts, with the same result. */
  lemma RetryStep(script: seq<Reply>, retries: int, delay: int)
    requires Attempt(script, 0).Err? && ShouldRetry(retries, Attempt(script, 0).error)
    ensures |script| > 0
    ensures var run := FetchWithRetry(script, retries, delay);
      var next := FetchWithRetry(script[1..], retries - 1, delay * 2);
      run.attempts == next.attempts + 1 && run.result == next.result
  {
  }

  lemma AttemptTail(script: seq<Reply>, i: nat)
    requires |script| > 0 && i > 0
    ensures Attempt(script, i) == Attempt(script[1..], i - 1)
  {
  }

  /** Two server errors and then a success, under the read defaults: three
      calls, waits of one and two seconds, and the success value. */
  lemma RetryRecoversFromServerErrors(v: Json.Value)
    ensures FetchWithRetry([Err(Failure(Some(500))), Err(Failure(Some(500))), Ok(v)], DefaultRetries, DefaultDelay)
         == RetryRun(Ok(v), 3, [1000, 2000], [])
  {
  }

  /** A client error is rethrown at once: one call, no wait. */
  lemma NoRetryOnClientError(rest: seq<Reply>)
    ensures FetchWithRetry([Err(Failure(Some(404)))] + rest, DefaultRetries, DefaultDelay)
         == RetryRun(Err(Failure(Some(404))), 1, [], rest)
  {
    assert ([Err(Failure(Some(404)))] + rest)[1..] == rest;
  }

  /** When every call fails with a server error, the reads give up after four
      calls and rethrow the fourth error. */
  lemma RetriesExhausted(rest: seq<Reply>)
    ensures var script := [Err(Failure(Some(500))), Err(Failure(Some(502))), Err(Failure(Some(503))), Err(Failure(Some(504)))] + rest;
      FetchWithRetry(script, DefaultRetries, DefaultDelay) == RetryRun(Err(Failure(Some(504))), 4, [1000, 2000, 4000], rest)
  {
    var script := [Err(Failure(Some(500))), Err(Failure(Some(502))), Err(Failure(Some(503))), Err(Failure(Some(504)))] + rest;
    assert script[1..][1..][1..][1..] == rest;
  }

  // ---------------------------------------------------------------------------
  // The client

  /** A read in flight: its request number and whether it will cache its response. */
  datatype PendingRequest = PendingRequest(id: nat, useCache: bool)

  /** How fetchResource answered synchronously: from the cache, by joining a
      pending read, or by issuing a new one. */
  datatype Start = CacheHit(data: Json.Value) | Joined(id: nat) | Issued(id: nat)

  class ApiClient {
    /** config.public.apiBase */
    const apiBase: string

    /** The module-level `cache` map. */
    var cache: Cache
    /** The module-level `pendingRequests` map. */
    var pending: map<string, PendingRequest>
    /** The replies the transport will give, in order. */
    var script: seq<Reply>
    /** How many times the transport has been called. */
    var transportCalls: nat
    /** The number the next issued read gets. */
    var nextId: nat

    /** Every pending read has a number already handed out, and no two share one. */
    ghost predicate Valid()
      reads this
    {
      && (forall k :: k in pending ==> pending[k].id < nextId)
      && (forall k, k' :: k in pending && k' in pending && k != k' ==> pending[k].id != pending[k'].id)
    }

    constructor (apiBase: string, script: seq<Reply>)
      ensures Valid()
      ensures this.apiBase == apiBase && this.script == script
      ensures cache == map[] && pending == map[] && transportCalls == 0 && nextId == 0
    {
      this.apiBase := apiBase;
      this.script := script;
      cache := map[];
      pending := map[];
      transportCalls := 0;
      nextId := 0;
    }

    /** `${apiBase}/jsonapi/${resourcePath}` */
    function ResourceUrl(path: string): string {
      apiBase + "/jsonapi/" + path
    }

    /** getFromCache(key) at time now. */
    method GetFromCache(key: string, now: int) returns (r: Option<Json.Value>)
      modifies this`cache
      ensures r == Lookup(old(cache), key, now)
      ensures cache == AfterLookup(old(cache), key, now)
    {
      if key !in cache {
        return None;
      }
      var entry := cache[key];
      if now - entry.timestamp > CacheTtl {
        cache := cache - {key};
        return None;
      }
      r := Some(entry.data);
    }

    /** saveToCache(key, data) at time now. */
    method SaveToCache(key: string, data: Json.Value, now: int)
      modifies this`cache
      ensures cache == old(cache)[key := CacheEntry(data, now)]
    {
      cache := cache[key := CacheEntry(data, now)];
    }

    /** clearCache(key?): a non-empty key removes that entry only; no key, or
        the empty string, clears the table. */
    method ClearCache(key: Option<string>)
      modifies this`cache
      ensures key.Some? && key.value != "" ==> cache == old(cache) - {key.value}
      ensures key.None? || key.value == "" ==> cache == map[]
    {
      if key.Some? && key.value != "" {
        cache := cache - {key.value};
      } else {
        cache := map[];
      }
    }

    /** fetchWithRetry against the transport: the calls it makes consume the script. */
    method Retrying(retries: int, delay: int) returns (run: RetryRun)
      modifies this`script, this`transportCalls
      ensures run == FetchWithRetry(old(script), retries, delay)
      ensures script == run.rest && transportCalls == old(transportCalls) + run.attempts
    {
      run := FetchWithRetry(script, retries, delay);
      script := run.rest;
      transportCalls := transportCalls + run.attempts;
    }

    /** fetchApiIndex: a fresh truthy cached index is returned without a
        transport call; otherwise the index is fetched with the read defaults
        and, on success, cached at time doneAt. */
    method FetchApiIndex(now: int, doneAt: int) returns (r: Reply)
      modifies this`cache, this`script, this`transportCalls
      ensures var key := apiBase + "/jsonapi";
        var hit := Lookup(old(cache), key, now);
        var swept := AfterLookup(old(cache), key, now);
        var run := FetchWithRetry(old(script), DefaultRetries, DefaultDelay);
        if hit.Some? && Json.Truthy(hit.value) then
          r == Ok(hit.value) && cache == swept
          && script == old(script) && transportCalls == old(transportCalls)
        else
          r == run.result && script == run.rest && transportCalls == old(transportCalls) + run.attempts
          && cache == if r.Ok? then swept[key := CacheEntry(r.value, doneAt)] else swept
    {
      var key := CacheKey(apiBase + "/jsonapi", None);
      var cached := GetFromCache(key, now);
      if cached.Some? && Json.Truthy(cached.value) {
        return Ok(cached.value);
      }
      var run := Retrying(DefaultRetries, DefaultDelay);
      r := run.result;
      if r.Ok? {
        SaveToCache(key, r.value, doneAt);
      }
    }

    /** The synchronous part of fetchResource(path, { params, cache }): serve a
        fresh truthy cached value, else join a pending read of the same key,
        else register a new read in the pending table. No transport call
        happens here. */
    method StartFetch(path: string, params: Option<Params>, cacheOption: Option<bool>, now: int) returns (s: Start)
      requires Valid()
      modifies this`cache, this`pending, this`nextId
      ensures Valid()
      ensures script == old(script) && transportCalls == old(transportCalls)
      ensures var key := CacheKey(ResourceUrl(path), params);
        var useCache := cacheOption != Some(false);
        var hit := if useCache then Lookup(old(cache), key, now) else None;
        && cache == (if useCache then AfterLookup(old(cache), key, now) else old(cache))
        && if hit.Some? && Json.Truthy(hit.value) then
             s == CacheHit(hit.value) && pending == old(pending) && nextId == old(nextId)
           else if key in old(pending) then
             s == Joined(old(pending)[key].id) && pending == old(pending) && nextId == old(nextId)
           else
             s == Issued(old(nextId)) && nextId == old(nextId) + 1
             && pending == old(pending)[key := PendingRequest(old(nextId), useCache)]
    {
      var key := CacheKey(ResourceUrl(path), params);
      var useCache := cacheOption != Some(false);
      if useCache {
        var cached := GetFromCache(key, now);
        if cached.Some? && Json.Truthy(cached.value) {
          return CacheHit(cached.value);
        }
      }
      if key in pending {
        return Joined(pending[key].id);
      }
      s := Issued(nextId);
      pending := pending[key := PendingRequest(nextId, useCache)];
      nextId := nextId + 1;
    }

    /** The settlement of the read pending under key: the retried transport
        calls happen, the response is cached at time doneAt when that read
        asked for caching, and the pending entry is removed whether the read
        succeeded or failed. Every caller that joined the read gets the same
        reply. */
    method CompleteFetch(key: string, doneAt: int) returns (id: nat, r: Reply)
      requires Valid() && key in pending
      modifies this`cache, this`pending, this`script, this`transportCalls
      ensures Valid()
      ensures var request := old(pending)[key];
        var run := FetchWithRetry(old(script), DefaultRetries, DefaultDelay);
        && id == request.id && r == run.result
        && script == run.rest && transportCalls == old(transportCalls) + run.attempts
        && pending == old(pending) - {key}
        && cache == if request.useCache && r.Ok? then old(cache)[key := CacheEntry(r.value, doneAt)] else old(cache)
    {
      var request := pending[key];
      id := request.id;
      var run := Retrying(DefaultRetries, DefaultDelay);
      r := run.result;
      if r.Ok? && request.useCache {
        SaveToCache(key, r.value, doneAt);
      }
      pending := pending - {key};
    }

    /** postResource(path, data): the write is retried at most twice; once it
        has succeeded the parameterless cache entry of the resource URL is
        removed. A failed write leaves the cache as it was. */
    method PostResource(path: string) returns (r: Reply)
      modifies this`cache, this`script, this`transportCalls
      ensures var run := FetchWithRetry(old(script), PostRetries, DefaultDelay);
        && r == run.result && script == run.rest && transportCalls == old(transportCalls) + run.attempts
        && cache == if r.Ok? then old(cache) - {ResourceUrl(path)} else old(cache)
    {
      var run := Retrying(PostRetries, DefaultDelay);
      r := run.result;
      if r.Ok? {
        ClearCache(Some(ResourceUrl(path)));
      }
    }
  }

  /** A write removes only the parameterless key of its resource: entries for
      the same URL with parameters stay. */
  lemma WriteKeepsParameterisedEntries(url: string, p: Params)
    ensures CacheKey(url, Some(p)) != CacheKey(url, None)
  {
  }

  /** The reply a caller of fetchResource receives, given how its call
      started and the request `id` that settled with reply `r`. A caller
      holding another request has not been answered yet. */
  function ReplyFor(s: Start, id: nat, r: Reply): Option<Reply> {
    match s
    case CacheHit(d) => Some(Ok(d))
    case Joined(j) => if j == id then Some(r) else None
    case Issued(j) => if j == id then Some(r) else None
  }

  /** n reads of one key issued before any response arrives make one transport
      call, and all of them get the reply of that call. */
  method ConcurrentReads(n: nat, v: Json.Value) returns (starts: seq<Start>, calls: nat, replies: seq<Option<Reply>>)
    requires n >= 1
    ensures |starts| == n && |replies| == n
    ensures starts[0] == Issued(0)
    ensures forall i :: 1 <= i < n ==> starts[i] == Joined(0)
    ensures calls == 1
    ensures forall i :: 0 <= i < n ==> replies[i] == Some(Ok(v))
  {
    var client := new ApiClient("https://api.example", [Ok(v)]);
    var key := CacheKey(client.ResourceUrl("node/page"), None);
    starts := [];
    var i := 0;
    while i < n
      invariant 0 <= i <= n
      invariant client.Valid()
      invariant |starts| == i
      invariant client.cache == map[] && client.script == [Ok(v)] && client.transportCalls == 0
      invariant i == 0 ==> client.pending == map[] && client.nextId == 0
      invariant i > 0 ==> client.pending == map[key := PendingRequest(0, true)] && client.nextId == 1
      invariant i > 0 ==> starts[0] == Issued(0)
      invariant forall j :: 1 <= j < i ==> starts[j] == Joined(0)
    {
      var s := client.StartFetch("node/page", None, None, 0);
      starts := starts + [s];
      i := i + 1;
    }
    var id, r := client.CompleteFetch(key, 10);
    calls := client.transportCalls;
    replies := seq(n, i requires 0 <= i < n => ReplyFor(starts[i], id, r));
  }

  /** After a successful write, a read of the same resource within the TTL no
      longer hits the cache: it issues a new request. */
  method ReadAfterWrite(v: Json.Value, w: Json.Value) returns (before: Start, after: Start)
    requires Json.Truthy(v)
    ensures before == CacheHit(v)
    ensures after.Issued?
  {
    var client := new ApiClient("https://api.example", [Ok(w)]);
    var key := CacheKey(client.ResourceUrl("webform_submission/123"), None);
    client.SaveToCache(key, v, 0);
    before := client.StartFetch("webform_submission/123", None, None, 1000);
    var posted := client.PostResource("webform_submission/123");
    after := client.StartFetch("webform_submission/123", None, None, 2000);
  }
}
