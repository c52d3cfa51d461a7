/**
 * `fetchCovid19Data`: a memoised query for the cases-by-time series of one
 * county or one state. The module-level dictionary `cachedQueryResults`
 * is the field `entries` of a `QueryCache` object; the HTTP exchange is
 * the `Response` the caller passes in, which is used only on a miss.
 */
module Covid19Query {
  import opened Wrappers
  import opened CasesByTime
  import opened QueryParams

  /** What the transport yields for a request. */
  datatype Response =
    | TransportError                  // axios.get rejects, or mapping a malformed `features` throws
    | NoFeatures                      // `data` or `data.features` is missing
    | Features(features: seq<Feature>)

  /**
   * The cache key `countyFIPS || stateName`: the county FIPS when it is
   * truthy, the state name otherwise.
   */
  function CacheKey(countyFIPS: string, stateName: string): (k: string)
    ensures Truthy(countyFIPS) ==> k == countyFIPS
    ensures !Truthy(countyFIPS) ==> k == stateName
    ensures Truthy(countyFIPS) || Truthy(stateName) ==> k != ""
  {
    if Truthy(countyFIPS) then countyFIPS else stateName
  }

  /**
   * The key and the query agree: a county query is sent exactly when the
   * key is the county FIPS, and the request filters on the key itself.
   */
  lemma KeyAgreesWithQuery(countyFIPS: string, stateName: string)
    ensures !IsStateQuery(BuildParams(countyFIPS, stateName)) <==> Truthy(countyFIPS)
    ensures FilterValue(BuildParams(countyFIPS, stateName)) == Some(CacheKey(countyFIPS, stateName))
  {
    BuildParamsBranches(countyFIPS, stateName);
  }

  /** At least one identifier is given, so the key is a real string. */
  predicate HasIdentifier(countyFIPS: string, stateName: string)
  {
    Truthy(countyFIPS) || Truthy(stateName)
  }

  /**
   * The own-entry lookup the cache check at the top of the function
   * evidently means: a hit exactly when a series is stored under the key.
   * Every stored value is an array, which is truthy even when empty.
   */
  function CachedSeries(entries: map<string, seq<Feature>>, key: string): (r: Option<seq<Feature>>)
    ensures r.Some? <==> key in entries
    ensures r.Some? ==> r.value == entries[key]
  {
    if key in entries then Some(entries[key]) else None
  }

  /** The effect of one call: its result, the new cache, the request it issued if any. */
  datatype Outcome = Outcome(
    result: Option<seq<Feature>>,
    cache: map<string, seq<Feature>>,
    request: Option<Params>)

  /**
   * One call of `fetchCovid19Data` against the cache `cache`, with
   * `response` standing for the answer the service would give.
   */
  function FetchStep(cache: map<string, seq<Feature>>, countyFIPS: string, stateName: string,
                     response: Response): (o: Outcome)
    requires HasIdentifier(countyFIPS, stateName)
    // a request is issued exactly on a miss, and it is the chosen parameter record
    ensures o.request.None? <==> CacheKey(countyFIPS, stateName) in cache
    ensures o.request.Some? ==> o.request.value == BuildParams(countyFIPS, stateName)
    // a hit returns the stored series and changes nothing
    ensures CacheKey(countyFIPS, stateName) in cache ==>
      o.result == Some(cache[CacheKey(countyFIPS, stateName)]) && o.cache == cache
    // a miss with features returns the derived series and stores that same series
    ensures CacheKey(countyFIPS, stateName) !in cache && response.Features? ==>
      o.result == Some(DeriveNewDeaths(response.features)) &&
      o.cache == cache[CacheKey(countyFIPS, stateName) := o.result.value]
    // a miss without features returns null and leaves the cache as it was
    ensures CacheKey(countyFIPS, stateName) !in cache && !response.Features? ==>
      o.result.None? && o.cache == cache
    // the cache only grows: no entry is removed or overwritten
    ensures forall k :: k in cache ==> k in o.cache && o.cache[k] == cache[k]
    ensures o.cache.Keys <= cache.Keys + {CacheKey(countyFIPS, stateName)}
  {
    var key := CacheKey(countyFIPS, stateName);
    match CachedSeries(cache, key)
    case Some(series) => Outcome(Some(series), cache, None)
    case None =>
      var request := Some(BuildParams(countyFIPS, stateName));
      match response
      case Features(fs) =>
        var derived := DeriveNewDeaths(fs);
        Outcome(Some(derived), cache[key := derived], request)
      case _ => Outcome(None, cache, request)
  }

  /** Every key is non-empty and every stored series carries consistent `NewDeaths`. */
  predicate CacheValid(cache: map<string, seq<Feature>>)
  {
    forall k :: k in cache ==> k != "" && NewDeathsConsistent(cache[k])
  }

  /** A call keeps the cache valid, and whatever it returns is a consistent series. */
  lemma FetchStepKeepsValid(cache: map<string, seq<Feature>>, countyFIPS: string, stateName: string,
                            response: Response)
    requires HasIdentifier(countyFIPS, stateName)
    requires CacheValid(cache)
    ensures CacheValid(FetchStep(cache, countyFIPS, stateName, response).cache)
    ensures FetchStep(cache, countyFIPS, stateName, response).result.Some? ==>
      NewDeathsConsistent(FetchStep(cache, countyFIPS, stateName, response).result.value)
  {
  }

  /**
   * Once a call has returned a series, every later call whose key is the
   * same (after any calls in between, whatever the other identifier and
   * the response) returns that same series, issues no request and leaves
   * the cache unchanged.
   */
  lemma SecondFetchHits(cache: map<string, seq<Feature>>,
                        c1: string, s1: string, r1: Response,
                        calls: seq<Call>,
                        c2: string, s2: string, r2: Response)
    requires HasIdentifier(c1, s1) && HasIdentifier(c2, s2)
    requires CallsWellFormed(calls)
    requires FetchStep(cache, c1, s1, r1).result.Some?
    requires CacheKey(c2, s2) == CacheKey(c1, s1)
    ensures var first := FetchStep(cache, c1, s1, r1);
      var between := Replay(first.cache, calls).cache;
      var later := FetchStep(between, c2, s2, r2);
      later.result == first.result && later.request.None? && later.cache == between
  {
    ReplayOnlyGrows(FetchStep(cache, c1, s1, r1).cache, calls);
  }

  /**
   * The county and state key spaces share one dictionary: after the
   * county "06037" has been fetched, asking for a state named "06037"
   * returns the county's series without a request.
   */
  lemma StateNameCollidesWithCountyFIPS(fs: seq<Feature>, r: Response)
    ensures var afterCounty := FetchStep(map[], "06037", "", Features(fs));
      var asState := FetchStep(afterCounty.cache, "", "06037", r);
      asState.result == Some(DeriveNewDeaths(fs)) && asState.request.None?
  {
    SecondFetchHits(map[], "06037", "", Features(fs), [], "", "06037", r);
  }

  /** One call of the function, as its arguments and the service's answer. */
  datatype Call = Call(countyFIPS: string, stateName: string, response: Response)

  predicate CallsWellFormed(calls: seq<Call>)
  {
    forall i :: 0 <= i < |calls| ==> HasIdentifier(calls[i].countyFIPS, calls[i].stateName)
  }

  /** The state after a sequence of calls: the cache and the requests issued, in order. */
  datatype Trace = Trace(cache: map<string, seq<Feature>>, requests: seq<Params>)

  function RequestsOf(o: Outcome): seq<Params>
  {
    if o.request.Some? then [o.request.value] else []
  }

  /** Runs the calls one after another, each as one atomic step. */
  function Replay(cache: map<string, seq<Feature>>, calls: seq<Call>): Trace
    requires CallsWellFormed(calls)
    decreases |calls|
  {
    if calls == [] then Trace(cache, [])
    else
      var o := FetchStep(cache, calls[0].countyFIPS, calls[0].stateName, calls[0].response);
      var rest := Replay(o.cache, calls[1..]);
      Trace(rest.cache, RequestsOf(o) + rest.requests)
  }

  /** Over any run, no entry is ever removed or changed. */
  lemma {:induction false} ReplayOnlyGrows(cache: map<string, seq<Feature>>, calls: seq<Call>)
    requires CallsWellFormed(calls)
    decreases |calls|
    ensures forall k :: k in cache ==>
      k in Replay(cache, calls).cache && Replay(cache, calls).cache[k] == cache[k]
  {
    if calls != [] {
      var o := FetchStep(cache, calls[0].countyFIPS, calls[0].stateName, calls[0].response);
      ReplayOnlyGrows(o.cache, calls[1..]);
    }
  }

  /** Over any run, the cache stays valid. */
  lemma {:induction false} ReplayKeepsValid(cache: map<string, seq<Feature>>, calls: seq<Call>)
    requires CallsWellFormed(calls)
    requires CacheValid(cache)
    decreases |calls|
    ensures CacheValid(Replay(cache, calls).cache)
  {
    if calls != [] {
      var o := FetchStep(cache, calls[0].countyFIPS, calls[0].stateName, calls[0].response);
      FetchStepKeepsValid(cache, calls[0].countyFIPS, calls[0].stateName, calls[0].response);
      ReplayKeepsValid(o.cache, calls[1..]);
    }
  }

  /**
   * A key that is in the cache is never queried again: no request of any
   * later run filters on it.
   */
  lemma {:induction false} NoRequestForCachedKey(cache: map<string, seq<Feature>>, calls: seq<Call>,
                                                 key: string)
    requires CallsWellFormed(calls)
    requires key in cache
    decreases |calls|
    ensures forall i :: 0 <= i < |Replay(cache, calls).requests| ==>
      FilterValue(Replay(cache, calls).requests[i]) != Some(key)
  {
    if calls != [] {
      var c := calls[0];
      var o := FetchStep(cache, c.countyFIPS, c.stateName, c.response);
      NoRequestForCachedKey(o.cache, calls[1..], key);
      if o.request.Some? {
        KeyAgreesWithQuery(c.countyFIPS, c.stateName);
      }
      var rest := Replay(o.cache, calls[1..]);
      assert Replay(cache, calls).requests == RequestsOf(o) + rest.requests;
    }
  }

  /**
   * The own (non-enumerable) properties and accessors of `Object.prototype`;
   * indexing a plain object literal with one of these names yields a
   * truthy inherited value although nothing was stored under it.
   */
  const ObjectPrototypeMembers: set<string> := {
    "constructor", "hasOwnProperty", "isPrototypeOf", "propertyIsEnumerable",
    "toLocaleString", "toString", "valueOf", "__proto__",
    "__defineGetter__", "__defineSetter__", "__lookupGetter__", "__lookupSetter__"
  }

  /** What `cachedQueryResults[key]` evaluates to. */
  datatype Lookup = Own(series: seq<Feature>) | Inherited(member: string) | Undefined

  /** The truthiness test of the cache check as written, on a plain `{}` object. */
  function LookupAsWritten(entries: map<string, seq<Feature>>, key: string): (r: Lookup)
    ensures r.Own? <==> key in entries
    ensures r.Inherited? <==> key !in entries && key in ObjectPrototypeMembers
  {
    if key in entries then Own(entries[key])
    else if key in ObjectPrototypeMembers then Inherited(key)
    else Undefined
  }

  /**
   * As written, a key named after an `Object.prototype` member counts as a
   * hit on a cache that holds nothing under it, so the function returns
   * that member instead of querying; the own-entry lookup misses and the
   * query is sent.
   */
  lemma PrototypeMemberIsFalseHit(fs: seq<Feature>)
    ensures LookupAsWritten(map[], "constructor") == Inherited("constructor")
    ensures CachedSeries(map[], "constructor") == None
    ensures FetchStep(map[], "", "constructor", Features(fs)).request == Some(StateParams("constructor"))
  {
  }

  /**
   * The memo cache of the module: the dictionary and, for observation, the
   * requests sent to the service so far.
   */
  class QueryCache {
    var entries: map<string, seq<Feature>>
    var requests: seq<Params>

    ghost predicate Valid()
      reads this
    {
      CacheValid(entries)
    }

    constructor ()
      ensures Valid() && entries == map[] && requests == []
    {
      entries := map[];
      requests := [];
    }

    /**
     * `fetchCovid19Data({countyFIPS, stateName})`: the stored series on a
     * hit; otherwise one request, and on a response with features the
     * derived series, stored under the key and returned; `None` (null)
     * otherwise.
     */
    method FetchCovid19Data(countyFIPS: string, stateName: string, response: Response)
      returns (r: Option<seq<Feature>>)
      requires Valid()
      requires HasIdentifier(countyFIPS, stateName)
      modifies this
      ensures Valid()
      ensures r.Some? ==> NewDeathsConsistent(r.value)
      ensures var o := FetchStep(old(entries), countyFIPS, stateName, response);
        r == o.result && entries == o.cache && requests == old(requests) + RequestsOf(o)
    {
      FetchStepKeepsValid(entries, countyFIPS, stateName, response);
      var key := CacheKey(countyFIPS, stateName);
      if key in entries {
        return Some(entries[key]);
      }
      var params := BuildParams(countyFIPS, stateName);
      requests := requests + [params];
      match response {
        case Features(fs) =>
          var a := new Feature[|fs|](i requires 0 <= i < |fs| => fs[i]);
          assert a[..] == fs;
          DeriveNewDeathsInPlace(a);
          var features := a[..];
          entries := entries[key := features];
          return Some(features);
        case _ =>
          return None;
      }
    }
  }
}
