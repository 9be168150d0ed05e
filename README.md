# Disaster resource finder: the in-memory store, modelled in Dafny

The server keeps four in-memory collections: relief resources (shelters, food
centres, medical hubs), emergency alerts, incident reports and volunteer sign-ups.
Its handlers list, read, create, update and delete resources. They also compute
aggregate statistics and find resources near a point. This project models those
handlers and proves what they do.

- `wrappers.dfy`: `Option`, `Result` and `Outcome`.
- `seqs.dfy`: the `filter` step and its algebra.
- `text.dfy`: ASCII lower-casing and `includes`.
- `resources.dfy`: the resource record and the pure steps of the resource
  handlers. These are create's validation and defaults, update's shallow merge,
  the first-match lookup by id, and delete's splice.
- `listing.dfy`: the list handler, with its type filter, search filter and limit.
- `statistics.dfy`: the stats fold, both as written and corrected (see Findings).
- `nearby.dfy`: the nearby pipeline. It annotates each record with its distance,
  keeps those within the radius, filters by type, and sorts stably by distance.
- `ancillary.dfy`: alerts, reports and volunteer sign-ups.
- `seed.dfy`: the start-up records.
- `server.dfy`: class `AppState`. Its fields are the four collections and it has
  one method per route handler. The mutating handlers change only the field they
  name in `modifies`.

A record's `type` field is called `kind`, because `type` is reserved in Dafny.
JavaScript numbers are `real`. Clock readings come in as parameters: `Date.now()`
for ids and `new Date().toISOString()` for timestamps. The distance function of
the nearby search is a parameter too.

In these places the code behaves in ways a reader may not expect, and the model follows the code:

- Stats gives every `type` value its own bucket, because the fold writes
  `acc[resource.type]`. Types other than shelter, food and medical are not dropped.
- Update overwrites `id` and `dateAdded` when the body supplies them
  (`Resources.MergeIdentityFields`).
- Create reads the clock twice, once for `dateAdded` and once for `lastUpdated`,
  so equal timestamps are not promised.
- Ids are clock values and need not be unique. A get after a delete fails only
  when the id was carried by a single record (`Resources.GetAfterRemove`).
- Create accepts a negative capacity. `parseInt` truncates a fractional one, and
  0.5 becomes 0 (`Resources.NewResourceCapacity`).
- Update does not re-check coordinates (`Resources.MergeSkipsCoordinateCheck`).

## Model

| member | source | states |
|---|---|---|
| `Seqs.Filter` | server.js:130-141 | `filter` keeps exactly the elements that pass the predicate, never more than the input holds |
| `Seqs.FilterAppend` | server.js:131 | filtering distributes over concatenation, so the output keeps store order |
| `Seqs.FilterFilter` | server.js:130-141 | two filters in a row are one filter by the conjunction |
| `Text.Lower` | server.js:135-139 | `toLowerCase` keeps the length and lowers each character in place (ASCII) |
| `Text.LowerIdempotent` | server.js:135 | lowering an already lowered string changes nothing |
| `Text.IncludesIffOccurs` | server.js:137-139 | `includes` holds exactly when the needle occurs at some position of the string |
| `Resources.Validate` | server.js:173-185 | create passes exactly when all six required fields are truthy and lat is in [-90, 90] and lng in [-180, 180]; the missing-fields error is reported exactly when a required field is falsy, and it takes precedence |
| `Resources.ZeroCoordinateIsMissing` | server.js:173 | a lat, lng or capacity of exactly 0 is falsy, so the request is refused as missing fields |
| `Resources.Truncate` | server.js:194 | `parseInt` of a number truncates toward zero: the result is within one of the input, on the zero side |
| `Resources.NewResourceDefaults` | server.js:187-202 | a created record carries the request's id, name, type, contact and position, which is in range; status is "active"; description and address default to "", opening hours to "24/7" (also when given as ""), facilities to [] |
| `Resources.NewResourceCapacity` | server.js:194 | the stored capacity is the request's positive capacity truncated, and a capacity below 1 becomes 0 |
| `Resources.MergeNoChanges` | server.js:223-227 | an empty update body changes only `lastUpdated` |
| `Resources.MergeEveryField` | server.js:223-227 | a body carrying every field replaces the whole record, except that `lastUpdated` is the new time |
| `Resources.MergeIgnoresBodyLastUpdated` | server.js:226 | `lastUpdated` is the new time whatever the body says about it |
| `Resources.MergeIdentityFields` | server.js:224-225 | `id` and `dateAdded` are overwritten when the body supplies them and kept otherwise |
| `Resources.MergeIdempotent` | server.js:223-229 | repeating an update with the same body and time gives the same record |
| `Resources.MergeThen` | server.js:223-229 | two updates in a row equal one update whose body lets the later fields win |
| `Resources.MergeSkipsCoordinateCheck` | server.js:214-229 | update can move a valid record to latitude 95, because it does not re-check coordinates |
| `Resources.FindIndex` | server.js:215 | `findIndex` by id returns the first position carrying the id, or none exactly when no record carries it |
| `Resources.Find` | server.js:152 | `find` by id succeeds exactly when some record carries the id, and returns the first record carrying it |
| `Resources.CountIdZero` | server.js:240-241 | no record carries the id exactly when the lookup fails |
| `Resources.RemoveAtKeepsOthers` | server.js:248 | `splice(i, 1)` shortens the store by one, keeps the records before `i` in place and shifts those after it down by one, and removes exactly one occurrence of the removed record |
| `Resources.RemoveFirstMatch` | server.js:240-248 | delete removes the first record carrying the id: the store is one shorter, the others keep their order, and the id is carried by one record fewer |
| `Resources.GetAfterRemove` | server.js:152-158 | after a delete, a get of the same id fails exactly when the id was carried by one record only |
| `Listing.List` | server.js:143-146 | `total` is the number of selected records; `data` is a prefix of the selection of length min(limit, total), with limit 50 when absent |
| `Listing.SelectedIsOneFilter` | server.js:128-141 | the type filter followed by the search filter selects exactly the records that pass both, in store order |
| `Listing.ListSound` | server.js:130-145 | every listed record is in the store, has the requested type if one is given, and has the lowered search text in its lowered name, description or address if a search is given |
| `Listing.ListComplete` | server.js:130-146 | `total` counts every matching record; when it is within the limit, every matching record is listed |
| `Listing.SelectedKeepsStoreOrder` | server.js:128-141 | the matches of a concatenated store are those of the first part followed by those of the second |
| `Listing.ListIgnoresSearchCase` | server.js:135-139 | two search texts with the same lower-case form list the same page |
| `Statistics.Accumulate` | server.js:258-269 | the fold as written always holds the `totalCapacity` and `totalResources` keys |
| `Statistics.KindNamedLikeACounterMiscounts` | server.js:258-269 | with the fold as written, a store of one record whose type is "totalResources" reports two resources, while the corrected fold reports one |
| `Statistics.SummarizeTotals` | server.js:258-269 | `totalResources` is the store's length and `totalCapacity` the sum of its capacities |
| `Statistics.SummarizeKeys` | server.js:259-266 | there is a bucket for shelter, food and medical, one for every type present, and no other |
| `Statistics.SummarizeBuckets` | server.js:259 | each bucket holds the number of records of its type |
| `Statistics.BucketsAddUp` | server.js:258-269 | the per-type counts sum to `totalResources` |
| `Statistics.AccumulateAgrees` | server.js:258-269 | when no type is named "totalCapacity" or "totalResources", the fold as written reports the same buckets and totals as the corrected fold |
| `Nearby.Annotate` | server.js:375-378 | the `map` step pairs each record, in store order, with its distance from the query point |
| `Nearby.Insert` | server.js:384 | one insertion step adds exactly the new entry |
| `Nearby.InsertSorted` | server.js:384 | inserting into a sequence sorted by distance keeps it sorted |
| `Nearby.SortByDistance` | server.js:384 | the sort returns a permutation of its input, ascending by distance |
| `Nearby.InsertKeepsTies` | server.js:384 | an inserted entry goes after every entry at the same distance, and those keep their order |
| `Nearby.SortKeepsTies` | server.js:384 | the sort is stable: the entries at any one distance keep their input order |
| `Nearby.FiltersSelectCandidates` | server.js:375-382 | the radius filter followed by the type filter selects exactly the qualifying records, in store order |
| `Nearby.NearbyIsStableSortOfCandidates` | server.js:375-384 | the nearby result is ascending by distance, a permutation of the qualifying records, and stable on ties |
| `Nearby.NearbyMembers` | server.js:375-382 | every result is within the radius and of the requested type; every store record that is appears, with its distance |
| `Ancillary.NewAlertIsListed` | server.js:281-298 | a created alert is active and is listed after every alert listed before it |
| `Seed.SeedStats` | server.js:16-97 | the seed store has two shelters, two food centres, one medical hub, capacity 3000 and five records |
| `Server.AppState.constructor` | server.js:16-121 | the state starts with the five seed resources and two seed alerts, no reports and no volunteers |
| `Server.AppState.ListResources` | server.js:126-148 | the list handler returns the page of matching records for the current store and changes nothing |
| `Server.AppState.GetResource` | server.js:151-163 | get succeeds exactly when some record carries the id, returns the first such record, and otherwise answers not-found |
| `Server.AppState.CreateResource` | server.js:166-211 | an invalid request answers with its error and leaves the store unchanged; a valid one appends exactly the new record at the end |
| `Server.AppState.UpdateResource` | server.js:214-236 | an unknown id answers not-found and leaves the store unchanged; otherwise only the first matching position is replaced, by the merged record |
| `Server.AppState.DeleteResource` | server.js:239-254 | an unknown id answers not-found and leaves the store unchanged; otherwise the first matching record is spliced out |
| `Server.AppState.GetStats` | server.js:257-275 | the stats are the record count, the capacity sum and the per-type counts of the current store; when no type is named "totalCapacity" or "totalResources", they are exactly what the fold as written reports |
| `Server.AppState.ListActiveAlerts` | server.js:278-283 | the alerts listed are exactly the active ones, in store order |
| `Server.AppState.CreateAlert` | server.js:285-305 | a new active alert is appended, and the active list grows by exactly it |
| `Server.AppState.CreateReport` | server.js:308-328 | a new "pending" report is appended and nothing else changes |
| `Server.AppState.CreateVolunteer` | server.js:331-353 | a new "pending" sign-up is appended and nothing else changes |
| `Server.AppState.FindNearby` | server.js:356-391 | the nearby result, with radius 50 km when absent, is sorted by distance, within the radius and of the requested type |

## Findings

| source | as written | input that shows it | evidently intended | confidence | as-written member | corrected member |
|---|---|---|---|---|---|---|
| server.js:258-269 | the per-type buckets and the two totals share one object keyed by `resource.type` | a store of one resource whose type is "totalResources": stats reports `totalResources` 2 (a type "totalCapacity" adds 1 to `totalCapacity` in the same way) | buckets kept apart from the totals, so that `totalResources` is the store's length and `totalCapacity` the sum of capacities | medium, not executed | `Statistics.KindNamedLikeACounterMiscounts` | `Statistics.SummarizeTotals` |

The stats handler of the model (`Server.AppState.GetStats`) uses the corrected
fold `Statistics.Summarize`. `Statistics.AccumulateAgrees` shows that both folds
report the same thing for every store without such a type.

## Left out

- HTTP plumbing is not modelled. This covers the Express set-up, the CORS, JSON
  and static-file middleware, the `/` route, the 500 and 404 middleware,
  `app.listen` and the console logging. The `{success, data, message, total}`
  envelopes and status codes are also left out; handlers return `Result` or
  `Outcome` values instead.
- The haversine formula (server.js:364-373) is floating-point trigonometry. The
  nearby search takes the distance function as a parameter.
- `Date.now()` and `new Date().toISOString()` are parameters, so clock values are
  not modelled. The model makes no claim about id uniqueness or clock
  monotonicity. All seed timestamps are one start-up reading.
- Parsing of query and path strings is not modelled: `parseInt(limit)`,
  `parseInt(req.params.id)`, `parseFloat` of the point and radius. The limit is
  a natural number, ids are integers, and the point and radius are reals. A
  non-numeric id (NaN, never found), a negative or NaN limit, and a NaN radius
  are outside the model.
- Other JSON value types are not modelled. This covers `null`, strings where
  numbers are expected (which JavaScript coerces in `lat < -90`), and arrays as
  query parameters. Update bodies carrying keys that are not record fields are
  also out: the source copies them into the record, and `ResourcePatch` has only
  the record's fields.
- `Server.AppState.GetStats`: answers with the corrected fold `Statistics.Summarize`,
  not the fold as written. On a store holding a record whose type is "totalResources"
  or "totalCapacity", the source reports a count or capacity too large by the
  number of such records (see Findings); the handler's `ensures` promises
  agreement with the source only for stores without such a type.
- `Resources.Truncate`: does not model `parseInt` on numbers whose string form
  uses exponent notation (magnitude at least 1e21 or below 1e-6). There
  `parseInt` reads only the leading digits.
- `Text.Lower`: lowers ASCII letters only, not full Unicode `toLowerCase`.
- `Statistics.Accumulate`: does not model type names inherited from JavaScript's
  `Object.prototype`, such as "toString" or "__proto__". For those,
  `acc[type] || 0` does not start from 0.
- `Nearby.SortByDistance`: assumes every distance is a number. NaN distances
  make the source's comparator inconsistent.
- A concrete search over the seed store is not stated as a lemma, because
  evaluating substring search on the seed's literal strings is too costly for
  the verifier. The general properties of the list handler cover every such search.
- Concurrency does not arise: every handler runs to completion before the next
  one starts.
