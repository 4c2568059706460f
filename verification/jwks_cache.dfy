/** The in-memory cache of the identity provider's signing keys
    (`get_public_keys`). Time is an integer clock in seconds; the key-set
    URL, the clock readings, the HTTP response and its parsed `max-age` are
    inputs, and each call reports the URL it requested, if any. */
module Jwks {
  import opened Wrappers

  /** The two cache fields of an `Auth` instance. `K` is the key-set document;
      `token == None` also covers a body that parsed to JSON `null`. */
  datatype KeyCache<K> = KeyCache(token: Option<K>, expiresAt: Option<int>)

  /** The response body: a JSON document (possibly `null`), or text that is
      not JSON, on which `resp.json()` raises. */
  datatype Body<K> = Json(document: Option<K>) | NotJson

  /** A response to the key-set request. `maxAge` is the `max-age` directive
      of `Cache-Control` when one was found. */
  datatype Response<K> = Response(maxAge: Option<nat>, body: Body<K>)

  /** What the HTTP GET would yield if it were issued: no response (the
      request raised), or a response together with the clock reading taken
      after it arrived. */
  datatype Fetch<K> = NoResponse | Received(response: Response<K>, receivedAt: int)

  datatype FetchError = TransportError | BodyNotJson

  /** One call: what it returns or raises, the cache afterwards, and the URL
      of the request it sent, if it sent one. */
  datatype Lookup<K> = Lookup(keys: Result<Option<K>, FetchError>, cache: KeyCache<K>, request: Option<string>)

  /** A fresh `Auth` holds no keys and no expiry. */
  function EmptyCache<K>(): KeyCache<K> {
    KeyCache(None, None)
  }

  /** `max-age` when present, and 0 otherwise. */
  function MaxAge<K>(response: Response<K>): nat {
    response.maxAge.GetOr(0)
  }

  /** The cache may be served at clock reading `now`: both fields are set and
      the expiry lies strictly in the future. */
  predicate IsFresh<K>(cache: KeyCache<K>, now: int) {
    cache.token.Some? && cache.expiresAt.Some? && now < cache.expiresAt.value
  }

  /** `get_public_keys` exactly as written: the new expiry is stored before
      the body is parsed, so a body that is not JSON leaves the new expiry
      paired with the previous keys. */
  function GetPublicKeysAsWritten<K>(cache: KeyCache<K>, url: string, now: int, fetch: Fetch<K>): (r: Lookup<K>)
    // A request goes out exactly when the cache is not fresh, and it is sent
    // to the key-set URL.
    ensures r.request.Some? <==> !IsFresh(cache, now)
    ensures r.request.Some? ==> r.request.value == url
    ensures r.request.None? ==> r.cache == cache && r.keys == Success(cache.token)
    // A request that raised touches neither field.
    ensures r.request.Some? && fetch.NoResponse? ==> r.cache == cache && r.keys == Failure(TransportError)
    // Any response moves the expiry to `receivedAt + max-age` ...
    ensures r.request.Some? && fetch.Received? ==>
      r.cache.expiresAt == Some(fetch.receivedAt + MaxAge(fetch.response))
    // ... a JSON body is stored and returned ...
    ensures r.request.Some? && fetch.Received? && fetch.response.body.Json? ==>
      r.keys == Success(fetch.response.body.document) && r.cache.token == fetch.response.body.document
    // ... and a body that is not JSON raises with the old keys kept.
    ensures r.request.Some? && fetch.Received? && fetch.response.body.NotJson? ==>
      r.keys == Failure(BodyNotJson) && r.cache.token == cache.token
  {
    if IsFresh(cache, now) then Lookup(Success(cache.token), cache, None)
    else
      match fetch
      case NoResponse => Lookup(Failure(TransportError), cache, Some(url))
      case Received(response, receivedAt) =>
        var expiresAt := Some(receivedAt + MaxAge(response));
        match response.body
        case Json(document) => Lookup(Success(document), KeyCache(document, expiresAt), Some(url))
        case NotJson => Lookup(Failure(BodyNotJson), cache.(expiresAt := expiresAt), Some(url))
  }

  /** A cache that was stale, and whose refresh failed, is fresh again
      afterwards and hands out the old keys without a request. */
  lemma AsWrittenServesStaleKeysAfterFailedRefresh(url: string)
    ensures var stale := KeyCache(Some(7), Some(100));
      var failed := GetPublicKeysAsWritten(stale, url, 200, Received(Response(Some(3600), NotJson), 200));
      && !IsFresh(stale, 200)
      && failed.keys == Failure(BodyNotJson)
      && IsFresh(failed.cache, 201)
      && GetPublicKeysAsWritten(failed.cache, url, 201, NoResponse) == Lookup(Success(Some(7)), failed.cache, None)
  {
  }

  /** The code as written and the corrected step differ only when a response
      arrives whose body is not JSON; every other input gives the same keys,
      the same cache and the same request. */
  lemma AsWrittenAgreesUnlessNotJson<K>(cache: KeyCache<K>, url: string, now: int, fetch: Fetch<K>)
    requires !(fetch.Received? && fetch.response.body.NotJson?)
    ensures GetPublicKeysAsWritten(cache, url, now, fetch) == GetPublicKeys(cache, url, now, fetch)
  {
  }

  /** On a stale cache and a body that is not JSON, the two steps raise the
      same error; only the expiry they leave behind differs. */
  lemma AsWrittenDiffersOnlyInExpiry<K>(cache: KeyCache<K>, url: string, now: int, response: Response<K>, receivedAt: int)
    requires !IsFresh(cache, now)
    requires response.body.NotJson?
    ensures var written := GetPublicKeysAsWritten(cache, url, now, Received(response, receivedAt));
      var corrected := GetPublicKeys(cache, url, now, Received(response, receivedAt));
      && written.keys == corrected.keys == Failure(BodyNotJson)
      && written.request == corrected.request == Some(url)
      && corrected.cache == cache
      && written.cache == cache.(expiresAt := Some(receivedAt + MaxAge(response)))
  {
  }

  /** `get_public_keys` with both fields written together: a hit when the
      cache is fresh; otherwise one request, and on success the parsed body is
      stored and returned with expiry `receivedAt + max-age`; on failure the
      error propagates and the cache is left as it was. */
  function GetPublicKeys<K>(cache: KeyCache<K>, url: string, now: int, fetch: Fetch<K>): (r: Lookup<K>)
    // A request goes out exactly when the cache is not fresh, and it is sent
    // to the key-set URL.
    ensures r.request.Some? <==> !IsFresh(cache, now)
    ensures r.request.Some? ==> r.request.value == url
    ensures r.request.None? ==> r.cache == cache && r.keys == Success(cache.token)
    ensures r.request.Some? && r.keys.Success? ==>
      && fetch.Received?
      && fetch.response.body == Json(r.keys.value)
      && r.cache == KeyCache(r.keys.value, Some(fetch.receivedAt + MaxAge(fetch.response)))
    ensures r.request.Some? && fetch.Received? && fetch.response.body.Json? ==> r.keys.Success?
    ensures r.keys.Success? ==> r.keys.value == r.cache.token
    ensures r.keys.Failure? ==> r.cache == cache
  {
    if IsFresh(cache, now) then Lookup(Success(cache.token), cache, None)
    else
      match fetch
      case NoResponse => Lookup(Failure(TransportError), cache, Some(url))
      case Received(response, receivedAt) =>
        match response.body
        case Json(document) =>
          Lookup(Success(document), KeyCache(document, Some(receivedAt + MaxAge(response))), Some(url))
        case NotJson => Lookup(Failure(BodyNotJson), cache, Some(url))
  }

  /** Only a successful fetch makes a cache fresh: if the cache after a call
      is fresh at some reading `later >= now`, then either the call was a hit
      on a cache that was already fresh, or it fetched and now holds exactly
      the fetched document. */
  lemma FreshnessComesFromFetch<K>(cache: KeyCache<K>, url: string, now: int, fetch: Fetch<K>, later: int)
    requires now <= later
    requires IsFresh(GetPublicKeys(cache, url, now, fetch).cache, later)
    ensures var r := GetPublicKeys(cache, url, now, fetch);
      || (IsFresh(cache, now) && r.cache == cache)
      || (fetch.Received? && fetch.response.body == Json(r.cache.token) && r.keys.Success?)
  {
  }

  /** The cache starts empty, so the first call always fetches. */
  lemma FirstCallFetches<K>(url: string, now: int, fetch: Fetch<K>)
    ensures GetPublicKeys(EmptyCache<K>(), url, now, fetch).request.Some?
  {
  }

  /** A fetch hits on later readings strictly before `receivedAt + max-age`
      and misses from that reading on. */
  lemma ExpiryFollowsMaxAge<K>(cache: KeyCache<K>, url: string, now: int, response: Response<K>, receivedAt: int, later: int, fetch: Fetch<K>)
    requires !IsFresh(cache, now)
    requires response.body.Json? && response.body.document.Some?
    ensures var r := GetPublicKeys(cache, url, now, Received(response, receivedAt));
      GetPublicKeys(r.cache, url, later, fetch).request.Some? <==> receivedAt + MaxAge(response) <= later
  {
  }

  /** With no `max-age` the entry expires at the reading it was fetched, so
      any call at that reading or later fetches again. */
  lemma NoMaxAgeMeansNoReuse<K>(cache: KeyCache<K>, url: string, now: int, body: Body<K>, receivedAt: int, later: int, fetch: Fetch<K>)
    requires !IsFresh(cache, now)
    requires now <= receivedAt <= later
    ensures var r := GetPublicKeys(cache, url, now, Received(Response(None, body), receivedAt));
      GetPublicKeys(r.cache, url, later, fetch).request.Some?
  {
  }

  /** A key-set document that is JSON `null` is never reused. */
  lemma NullDocumentNeverCached<K>(cache: KeyCache<K>, url: string, now: int, maxAge: Option<nat>, receivedAt: int, later: int, fetch: Fetch<K>)
    requires !IsFresh(cache, now)
    ensures var r := GetPublicKeys(cache, url, now, Received(Response(maxAge, Json(None)), receivedAt));
      GetPublicKeys(r.cache, url, later, fetch).request.Some?
  {
  }

  /** Repeated calls on a cache that stays fresh make no request and return
      the same keys. */
  lemma HitsAreStable<K>(cache: KeyCache<K>, url: string, now: int, later: int, fetch1: Fetch<K>, fetch2: Fetch<K>)
    requires now <= later
    requires IsFresh(cache, later)
    ensures var first := GetPublicKeys(cache, url, now, fetch1);
      var second := GetPublicKeys(first.cache, url, later, fetch2);
      first.request.None? && second.request.None? && second.keys == first.keys
  {
  }
}
