/** The cache-check / paginate / cache-store flow of `ListNetworkTransferPrices`
    (network_transfer_prices.go:13-33). The cache-key generator, the per-endpoint fetch
    oracle and the option applier are parameters; the cache is a map from key to list. */
module NetworkTransferPrices {
  import opened Results
  import opened RequestHelpers

  /** The raw endpoint the list is paginated from (line 14). */
  const PricesEndpoint := "network-transfer/prices"

  type Cache<T> = map<string, seq<T>>

  /** A call's outcome: the result, the cache afterwards, the endpoints handed to the
      paginator (at most one), and the caller's options afterwards. */
  datatype Listing<T> = Listing(result: Result<seq<T>>, cache: Cache<T>, paginated: seq<string>, opts: Option<ListOptions>)

  /** The caller's options after a call to the paginator: a caller that passed none has none. */
  function WrittenBack<T>(opts: Option<ListOptions>, t: Trace<T>): Option<ListOptions>
  {
    if opts.Some? then Some(t.opts) else None
  }

  /** Only a cache miss reaches the paginator (line 25), so only a miss that reaches the
      paginator's loop needs the server's page counts to be bounded. */
  ghost predicate BoundedOnMiss<T>(cache: Cache<T>,
                                   cacheKey: (string, Option<ListOptions>) -> Result<string>,
                                   fetchAt: string -> Fetch<T>,
                                   applyOptions: ApplyOptions,
                                   opts: Option<ListOptions>)
  {
    cacheKey(PricesEndpoint, opts).Success? && cacheKey(PricesEndpoint, opts).value !in cache ==>
      BoundedIfLooping(fetchAt(PricesEndpoint), applyOptions, opts)
  }

  /** `ListNetworkTransferPrices` (lines 13-33). `cacheKey` is `generateListCacheURL`, and
      `fetchAt(e)` is the page oracle of endpoint `e`. */
  function ListNetworkTransferPrices<T>(cache: Cache<T>,
                                        cacheKey: (string, Option<ListOptions>) -> Result<string>,
                                        fetchAt: string -> Fetch<T>,
                                        applyOptions: ApplyOptions,
                                        opts: Option<ListOptions>): (l: Listing<T>)
    requires BoundedOnMiss(cache, cacheKey, fetchAt, applyOptions, opts)
    // lines 16-19: no key, no fetch, no cache change
    ensures cacheKey(PricesEndpoint, opts).Failure? ==>
      l == Listing(Failure(cacheKey(PricesEndpoint, opts).error), cache, [], opts)
    // lines 21-23: a hit is returned as stored and nothing is fetched
    ensures cacheKey(PricesEndpoint, opts).Success? && cacheKey(PricesEndpoint, opts).value in cache ==>
      l == Listing(Success(cache[cacheKey(PricesEndpoint, opts).value]), cache, [], opts)
    // line 25: a miss paginates the raw endpoint, not the key
    ensures cacheKey(PricesEndpoint, opts).Success? && cacheKey(PricesEndpoint, opts).value !in cache ==>
      && l.paginated == [PricesEndpoint]
      && l.result == Paginate(fetchAt(PricesEndpoint), applyOptions, opts).result
    // lines 26-28: a failed call leaves the cache as it was
    ensures l.result.Failure? ==> l.cache == cache
    // lines 30-32: a successful call leaves its result stored under the key it looked up
    ensures l.result.Success? ==>
      && cacheKey(PricesEndpoint, opts).Success?
      && l.cache == cache[cacheKey(PricesEndpoint, opts).value := l.result.value]
  {
    match cacheKey(PricesEndpoint, opts)
    case Failure(e) => Listing(Failure(e), cache, [], opts)
    case Success(key) =>
      if key in cache then
        Listing(Success(cache[key]), cache, [], opts)
      else
        var t := Paginate(fetchAt(PricesEndpoint), applyOptions, opts);
        match t.result
        case Failure(e) => Listing(Failure(e), cache, [PricesEndpoint], WrittenBack(opts, t))
        case Success(response) => Listing(Success(response), cache[key := response], [PricesEndpoint], WrittenBack(opts, t))
  }

  /** A call changes at most the entry of the key it looked up: every other key is present
      afterwards exactly when it was before, with the same list. */
  lemma OtherKeysUnchanged<T>(cache: Cache<T>,
                              cacheKey: (string, Option<ListOptions>) -> Result<string>,
                              fetchAt: string -> Fetch<T>,
                              applyOptions: ApplyOptions,
                              opts: Option<ListOptions>, k: string)
    requires BoundedOnMiss(cache, cacheKey, fetchAt, applyOptions, opts)
    requires cacheKey(PricesEndpoint, opts) != Success(k)
    ensures var l := ListNetworkTransferPrices(cache, cacheKey, fetchAt, applyOptions, opts);
      (k in l.cache <==> k in cache) && (k in cache ==> l.cache[k] == cache[k])
  {
  }

  /** Once a call has succeeded, any later call whose options give the same key is served
      from the cache: it returns the same list, fetches nothing and leaves the cache alone. */
  lemma SecondCallIsServedFromCache<T>(cache: Cache<T>,
                                       cacheKey: (string, Option<ListOptions>) -> Result<string>,
                                       fetchAt: string -> Fetch<T>,
                                       applyOptions: ApplyOptions,
                                       opts: Option<ListOptions>, later: Option<ListOptions>)
    requires BoundedOnMiss(cache, cacheKey, fetchAt, applyOptions, opts)
    requires ListNetworkTransferPrices(cache, cacheKey, fetchAt, applyOptions, opts).result.Success?
    requires cacheKey(PricesEndpoint, later) == cacheKey(PricesEndpoint, opts)
    ensures var first := ListNetworkTransferPrices(cache, cacheKey, fetchAt, applyOptions, opts);
      var second := ListNetworkTransferPrices(first.cache, cacheKey, fetchAt, applyOptions, later);
      && second.result == first.result
      && second.paginated == []
      && second.cache == first.cache
  {
  }
}
