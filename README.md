# fetchCovid19Data: a verified model of the time-series query client

The covid19-trend-map application draws COVID-19 trends for US counties and
states on a map. When the user selects a county or a state, it calls
`fetchCovid19Data` (`src/utils/queryCovid19Data.ts`). That function asks a
remote feature service for the region's day-by-day cases and deaths,
remembers the answer in a module-level dictionary, and adds a derived
`NewDeaths` attribute to every daily record.

The model has three modules, one per behaviour, and a small `Wrappers`
module that holds `Option`:

- `CasesByTime` (`cases_by_time.dfy`) holds the daily records. It defines
  `DeriveNewDeaths`, the forward difference of cumulative deaths:
  `NewDeaths` is 0 on the first record and `Deaths[i] - Deaths[i-1]` on
  every later one. `DeriveNewDeathsInPlace` is the in-place loop over an
  array, proved equal to that function.
- `QueryParams` (`query_params.dfy`) holds the two fixed parameter records.
  The county record filters on `FIPS='…'`. The state record filters on
  `ST_Name='…'`, groups by `ST_Name,dt` and carries four `sum` statistics.
  `BuildParams` chooses between them by the truthiness of the county FIPS.
- `Covid19Query` (`query_cache.dfy`) holds the memo cache and the whole
  call. `FetchStep` is the pure meaning of one call. The class `QueryCache`
  keeps the dictionary as the field `entries`, and its method
  `FetchCovid19Data` updates that field and is proved against `FetchStep`.
  `Replay` runs a sequence of calls one after another, and lemmas about it
  state what holds over any run.

The HTTP exchange is an input. `Response` is one of `TransportError` (the
request rejects, or mapping a malformed `features` value throws inside the
`try` block), `NoFeatures` (no `data` or no `data.features`), or
`Features(seq)`. The method reads it only on a cache miss. The class also
records every request it sends in the field `requests`. The source has no
such field. It stands in for counting the transport's calls, so that "a hit
sends no request" can be stated.

An identifier is a `string`, and the empty string plays the falsy value.
`countyFIPS || stateName` is therefore "the FIPS if it is non-empty, else
the state name". The code accepts a call that gives both identifiers and
lets the FIPS win. The model does the same.

## Model

| member | source | states |
|---|---|---|
| `CasesByTime.DeriveNewDeaths` | src/utils/queryCovid19Data.ts:76-89 | The derived series has the input's length and order, keeps every attribute but `NewDeaths`, has `NewDeaths == 0` on its first record and `Deaths[i] - Deaths[i-1]` on every later one |
| `CasesByTime.DerivedIsUnique` | src/utils/queryCovid19Data.ts:76-89 | Any series with those three properties is the derived series, so they describe the mapping completely |
| `CasesByTime.ConsistentIffFixpoint` | src/utils/queryCovid19Data.ts:82-86 | The derivation leaves a series unchanged if and only if its `NewDeaths` already equal the forward difference of its `Deaths` |
| `CasesByTime.DeriveIdempotent` | src/utils/queryCovid19Data.ts:76-89 | Deriving a second time changes nothing |
| `CasesByTime.DerivePrefix` | src/utils/queryCovid19Data.ts:78-84 | Each derived value depends only on the record and the one before it: deriving a prefix gives the prefix of the derived series |
| `CasesByTime.NewDeathsTelescope` | src/utils/queryCovid19Data.ts:82-86 | The derived daily values add back to the cumulative count: the sum of `NewDeaths` over records 0..k is `Deaths[k] - Deaths[0]` |
| `CasesByTime.NewDeathsAt` | src/utils/queryCovid19Data.ts:78-84 | No contract of its own: it is the callback's value, 0 without a previous record and otherwise the increase over it. `DeriveNewDeaths` states what it yields across the series |
| `CasesByTime.DeriveNewDeathsInPlace` | src/utils/queryCovid19Data.ts:76-89 | Writing `NewDeaths` record by record into the array leaves it equal to the derived series of its old contents, although step i reads record i-1 after that record has been written |
| `QueryParams.QuotedValue` | src/utils/queryCovid19Data.ts:31-40 | A value read out of a `column='value'` predicate rebuilds that exact predicate |
| `QueryParams.Quoted` | src/utils/queryCovid19Data.ts:34-40 | The `column='value'` template reads back to exactly the value spliced in, for every column and value |
| `QueryParams.CountyParams` | src/utils/queryCovid19Data.ts:32-37 | The county record is not grouped and has no statistics, and it filters on the given FIPS |
| `QueryParams.StateParams` | src/utils/queryCovid19Data.ts:38-66 | The state record is grouped and carries statistics, and it filters on the given state name |
| `QueryParams.BuildParams` | src/utils/queryCovid19Data.ts:31-66 | A state record is chosen exactly when the county FIPS is falsy, and the record filters on the FIPS if it is truthy, otherwise on the state name. `BuildParamsBranches` adds the remaining fields |
| `QueryParams.BuildParamsBranches` | src/utils/queryCovid19Data.ts:31-66 | Both records use `f=json` and order by `dt`. A state query is built exactly when the county FIPS is empty. The county record has the fixed field list and no statistics, and filters on the FIPS. The state record has `outFields='*'`, groups by `ST_Name,dt`, carries the four statistics, and filters on the state name |
| `QueryParams.StateStatisticsAreSelfNamedSums` | src/utils/queryCovid19Data.ts:44-65 | The state query has exactly four statistics. Each is a `sum` whose output field name equals its input field |
| `QueryParams.StateStatisticsFields` | src/utils/queryCovid19Data.ts:44-65 | The statistics aggregate Confirmed, Deaths, NewCases and Population, in that order |
| `QueryParams.StateSumsMirrorCountyFields` | src/utils/queryCovid19Data.ts:35-65 | The state sums are exactly the county query's fields after `dt`, so both kinds of query ask for the same four measures after `dt`, in the same order |
| `QueryParams.BuildParamsInjective` | src/utils/queryCovid19Data.ts:31-66 | Equal requests come from the same kind of query with the same identifier, and a county request never equals a state request |
| `Covid19Query.CacheKey` | src/utils/queryCovid19Data.ts:23 | The key is the county FIPS when it is non-empty, otherwise the state name, and it is non-empty when either identifier is |
| `Covid19Query.KeyAgreesWithQuery` | src/utils/queryCovid19Data.ts:23-40 | One truthiness test picks both the key and the query kind: a county query is sent exactly when the FIPS is the key, and every request filters on the key |
| `Covid19Query.CachedSeries` | src/utils/queryCovid19Data.ts:25-27 | A lookup hits exactly when a series is stored under the key, and then yields that series |
| `Covid19Query.FetchStep` | src/utils/queryCovid19Data.ts:18-103 | A hit returns the stored series, sends no request and changes nothing. A miss sends `BuildParams`. With features, it stores the derived series under the key and returns that same series. Without features or on a transport error, it returns null and leaves the cache unchanged. No entry is ever removed or overwritten |
| `Covid19Query.FetchStepKeepsValid` | src/utils/queryCovid19Data.ts:76-95 | Every cached key stays non-empty, and every cached or returned series stays consistent in `NewDeaths` |
| `Covid19Query.SecondFetchHits` | src/utils/queryCovid19Data.ts:23-27 | After a call that returned a series, any later call with the same key, after any sequence of calls in between, returns that same series, without a request and without change, whatever the response would be |
| `Covid19Query.StateNameCollidesWithCountyFIPS` | src/utils/queryCovid19Data.ts:23-27 | County and state keys share one dictionary: a state named "06037" gets the series of county 06037, without a request |
| `Covid19Query.Replay` | src/utils/queryCovid19Data.ts:18-103 | No contract of its own: it runs calls one after another, each one `FetchStep`. `ReplayOnlyGrows`, `ReplayKeepsValid` and `NoRequestForCachedKey` state what holds over any run |
| `Covid19Query.ReplayOnlyGrows` | src/utils/queryCovid19Data.ts:25-95 | Over any sequence of calls, every entry stays in the cache with the same series |
| `Covid19Query.ReplayKeepsValid` | src/utils/queryCovid19Data.ts:76-95 | Over any sequence of calls, the cache stays valid |
| `Covid19Query.NoRequestForCachedKey` | src/utils/queryCovid19Data.ts:25-71 | Once a key is cached, no later request in any sequence of calls filters on it |
| `Covid19Query.LookupAsWritten` | src/utils/queryCovid19Data.ts:25 | Indexing the `{}` dictionary finds an own entry exactly when one is stored, and otherwise an inherited member exactly when the key names an `Object.prototype` member |
| `Covid19Query.PrototypeMemberIsFalseHit` | src/utils/queryCovid19Data.ts:25-27 | As written, the key "constructor" hits an empty cache. The own-entry lookup misses, so the model sends the state query |
| `Covid19Query.QueryCache.constructor` | src/utils/queryCovid19Data.ts:14-16 | The cache starts empty and valid, with no requests sent |
| `Covid19Query.QueryCache.FetchCovid19Data` | src/utils/queryCovid19Data.ts:18-103 | The result, the new dictionary and the appended request are exactly those of `FetchStep` on the old dictionary. The cache stays valid, and any series returned is consistent in `NewDeaths` |

## Findings

| source | as written | input that shows it | evidently intended | confidence | as-written member | corrected member |
|---|---|---|---|---|---|---|
| src/utils/queryCovid19Data.ts:25 | The cache check indexes a plain object literal, so inherited `Object.prototype` members are truthy hits | `fetchCovid19Data({stateName: "constructor"})` on an empty cache returns `Object` itself and sends no query | A hit only for a series stored earlier under that key | low (no US state or FIPS code is such a name); not executed | `Covid19Query.LookupAsWritten`, `Covid19Query.PrototypeMemberIsFalseHit` | `Covid19Query.CachedSeries`, used by `Covid19Query.FetchStep`; `Covid19Query.NoRequestForCachedKey` |

## Left out

- `src/components/App/App.tsx` is not part of this model. It is React wiring: startup loads of the trend datasets, a catch-and-log, and selection handlers that only log.
- The HTTP call itself, `axios.get`, the request URL and the `URLSearchParams` encoding. The transport is the `Response` input.
- The JSON text that `JSON.stringify` makes of `outStatistics`. The model keeps the list of statistic records.
- Interleaving of overlapping asynchronous calls. Each call is one atomic step, and `Replay` runs calls strictly one after another.
- The `console.error` logging on a transport error.
- JavaScript number semantics. `Deaths` and `NewDeaths` are unbounded integers, so non-numeric values of `Deaths` are not modelled: a `null` `Deaths` is read as 0 by `-`, and an absent or non-numeric-string one gives `NaN`. Negative differences are kept, as in the code.
- The call in which no identifier is non-empty, whose key would be `undefined` or `""` (for example `stateName: ""` with no truthy FIPS, which the code would send as `ST_Name=''`). `HasIdentifier` is a precondition instead.
- A `features` value that is truthy but not an array, or an element without `attributes`. The code's `map` throws, the `catch` turns that into null and nothing is cached. The model cannot express such a response as `Features(seq)`: `TransportError` stands for it, with the same outcome.
- Object identity and aliasing. The source writes `NewDeaths` into the response's own feature objects and caches that array. A caller that later mutates a returned array would change the cached entry. The model works on values, and `DeriveNewDeathsInPlace` updates a fresh array.
- Attributes that no code reads, such as `ST_Name` in state rows. A record carries `dt`, `Confirmed`, `Deaths`, `NewCases`, `Population` and `NewDeaths`.
- Quoting inside the `where` predicate. Identifiers are spliced in verbatim, as in the code, and no SQL meaning is given to the predicate.
- `Covid19Query.LookupAsWritten`: it models the prototype lookup only for the listed `Object.prototype` members. The code never stores under one of them: `({})["__proto__"]` is `Object.prototype`, which is truthy, so such a key always hits and the function returns before the store.
