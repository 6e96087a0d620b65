# rssize: the adventar calendar feed, modelled in Dafny

The handler for `GET /api/adventar/:calid` in `src/adventar.go` turns one
adventar.org calendar page into an RSS feed. The model covers:

- the request gate: `strconv.Atoi` must accept `calid`, or the answer is 404
  before anything else runs (module `Numeric`);
- `getData`: memcache in front of the upstream page (hit, miss with a
  best-effort `Add` for 30 minutes, any other cache error fails), then parsing
  and `getPropData` with its two error paths (modules `Cache`, `Extract`);
- the entry loop of `AdventarHandler`: each entry with a URL gets a
  get-or-create of its "first seen" timestamp in the datastore
  (`AdventarLastUpdated`) and becomes a feed item, unless the lookup fails
  (module `Reconcile` for the specification, `Store` for the datastore,
  `Handler` for the loop and the whole handler).

Memcache, the datastore and the upstream web site are classes whose fields
hold their contents and their faults (which ids fail to read or write, whether
the cache fails). The third-party libraries (goquery's document parser,
`json.Unmarshal`, gorilla/feeds' `ToRss`) are functions handed in through a
`Library` value; the clock is a `now` parameter.

`Reconcile.Run` is the specification of the entry loop; `Handler.ReconcileEntries`
is the loop itself, proved to produce the items and the store of `Run`. The
lemmas of `Reconcile` then describe `Run` independently: the items are the
qualifying entries in source order (`Kept`), each with the timestamp it was
first seen with, and the store is the old store plus `now` for the new ids.

Where the code does something other than what it evidently intends, the
model follows the code: the description is whatever the parser yields for
the `meta` element (the code takes its text, not its `content` attribute),
and an upstream error page is fetched, cached and parsed like any other page,
since the code never checks the response status (src/adventar.go:95-111).
The one exception is the clock, listed under "## Left out" and "## Findings".

## Model

| member | source | states |
|---|---|---|
| `Adventar.CalendarUrlInjective` | src/adventar.go:85 | distinct calendar ids give distinct upstream URLs |
| `Numeric.Atoi` | src/adventar.go:133-136 | a string is accepted exactly when it is an optional sign followed by at least one ASCII digit whose value fits in 64 bits, and then that value is returned; every numeral shorter than 19 characters is accepted |
| `Numeric.LongNumeralRejected` | src/adventar.go:133-136 | a numeral with twenty or more significant digits is rejected, so its id is answered 404 |
| `Numeric.AtoiItoa` | src/adventar.go:133 | `Atoi` reads back the decimal rendering of every 64-bit integer |
| `Reconcile.ReconcileEntryTwoClocks` | src/adventar.go:155-186 | one iteration as written: an item is added exactly for an entry with a URL and a working lookup, with the entry's title and URL and the stored time or the line-160 reading; no stored id is changed or lost; the line-171 reading is stored under the entry's id exactly when the entry qualifies, its id was not stored and the `Put` succeeds, and otherwise the store is unchanged |
| `Reconcile.ReconcileEntry` | src/adventar.go:155-186 | one iteration as `ReconcileEntryTwoClocks` with `now` for both clock readings: a qualifying entry gets an item with its title, URL and first-seen time (the stored one, or `now` for a new id); `now` is stored under the id exactly when it was new and the `Put` succeeds; an entry with an empty URL or a failed lookup changes nothing |
| `Reconcile.Run` | src/adventar.go:153-187 | the whole loop gives no more items than there are entries and never loses a stored id |
| `Reconcile.EmptyUrlNotLookedUp` | src/adventar.go:155-158 | an entry with an empty URL adds nothing to the sequence of ids the loop looks up |
| `Reconcile.StoreAfterPass` | src/adventar.go:155-179 | after a pass the store is the old store, unchanged, plus `now` for exactly the ids of entries with a URL, a successful lookup and a successful `Put` that were not stored yet |
| `Reconcile.ItemsOfPass` | src/adventar.go:154-187 | the items are the qualifying entries in source order, one each, with the entry's title as title, its URL as link, and the stored timestamp (or `now` for a new id) as creation time |
| `Reconcile.KeptIsFilter` | src/adventar.go:155-179 | an entry with a URL and a working lookup occurs among the items as often as in the entry list; an entry with an empty URL or a failed lookup never does |
| `Reconcile.SkippedEntryHasNoEffect` | src/adventar.go:155-158 | an entry with an empty URL or a failed lookup changes neither the items nor the store |
| `Reconcile.WriteOnce` | src/adventar.go:165-175 | a stored timestamp is never overwritten or removed by a pass |
| `Reconcile.OnlyListedIdsWritten` | src/adventar.go:155-175 | every record a pass creates holds `now` and belongs to an entry of the list that has a URL; ids of other entries are untouched |
| `Reconcile.PutFailuresKeepItems` | src/adventar.go:168-175 | a failed `Put` never removes or changes an item: the items are those of a pass in which every write succeeds |
| `Reconcile.SecondPassIdempotent` | src/adventar.go:160-175 | after a pass whose writes all succeed, a second pass over the same entries with the same read failures, at any later time and whatever writes fail, yields the same items and leaves the store unchanged |
| `Reconcile.LaterPassKeepsFirstSeen` | src/adventar.go:160-175 | a later pass, over any entries with any read and write failures and any clock, keeps every record of an earlier pass, and dates every entry whose id the earlier pass stored exactly as the earlier pass did |
| `Reconcile.CreatedMatchesStore` | src/adventar.go:160-185 | each item's creation time is the timestamp the store holds for its id after the pass, or `now` if none is held |
| `Reconcile.TwoClocksChangeFirstDate` | src/adventar.go:160-171 | with two different clock readings, a new entry's date in the first feed differs from its date in the next |
| `Store.Datastore.Get` | src/adventar.go:162-168 | a lookup is logged and reports the stored timestamp, "no such entity", or a storage error for the ids whose reads fail |
| `Store.Datastore.Put` | src/adventar.go:169-175 | a write stores the timestamp under the id unless the write fails, and says whether it succeeded |
| `Cache.CacheKeyInjective` | src/adventar.go:89 | distinct URLs never share a cache key |
| `Cache.Memcache.Get` | src/adventar.go:90-93 | the cache answers a hit with the stored bytes, a miss when the key is absent, or a failure |
| `Cache.Memcache.Add` | src/adventar.go:104-109 | an add stores the value with its expiration only under an absent key and only if the cache does not fail |
| `Cache.Upstream.Get` | src/adventar.go:94-103 | each fetch sends one request to the URL and yields the body, a request failure or a read failure |
| `Cache.Acquire` | src/adventar.go:89-114 | a request is sent exactly on a miss; the cache never loses or changes an item and gains at most the page's key; bytes yielded while the page is cached are the cached bytes |
| `Cache.HitNeedsNoFetch` | src/adventar.go:90-92 | on a hit the cached bytes are used, no request is sent and the cache is unchanged |
| `Cache.MissFetches` | src/adventar.go:93-111 | on a miss one request is sent; a read body is used and added under the same key for 30 minutes unless the add fails; a failed request or read fails `getData` and leaves the cache alone |
| `Cache.CacheFailureIsFatal` | src/adventar.go:112-114 | a cache error other than a miss fails `getData` with no request sent |
| `Cache.AddFailureIsHarmless` | src/adventar.go:109 | whether the add succeeds never changes the bytes or the error `getData` goes on with |
| `Cache.SecondRequestServedFromCache` | src/adventar.go:89-111 | after a successful miss, the next request for the page is a hit with byte-identical content and sends no request |
| `Extract.GetPropData` | src/adventar.go:70-82 | a missing `data-react-props` attribute fails with `PropNotFound`, an undecodable one with `UnmarshalError`, otherwise the decoded payload is returned |
| `Extract.Parse` | src/adventar.go:116-128 | page data is produced exactly when parsing and `getPropData` succeed, and carries the page's title, description, URL and payload; the only errors are parse, missing-attribute and decode errors |
| `Handler.GetData` | src/adventar.go:84-129 | the cache and the request log change as the cache-or-fetch step prescribes and the result is the parsed page or the first error |
| `Handler.ReconcileEntries` | src/adventar.go:153-187 | the loop appends exactly the items of `Run` to the feed, leaves the datastore as `Run` says, and looks up exactly the ids of the entries with a URL, in order |
| `Handler.Render` | src/adventar.go:189-195 | the response is the RSS document as `text/xml` with status 200 exactly when writing the feed succeeds, otherwise the 500 response |
| `Handler.AdventarHandler` | src/adventar.go:131-196 | a non-numeric id is answered 404 with nothing touched; a failure of `getData` is answered 500 with the datastore neither read nor written; otherwise the feed has the page's title, URL and description, is created `now`, holds the items of `Run`, and is written as RSS or answered 500 if writing fails |

## Findings

| source | as written | input that shows it | evidently intended | confidence | as-written member | corrected member |
|---|---|---|---|---|---|---|
| src/adventar.go:160-171 | a new entry's item uses one `time.Now()` (line 160) and the stored record another (line 171) | an entry never seen before, with the clock advancing between the two calls: the first feed dates it t1, every later feed t2 | one instant, both returned and stored, so the date is stable from the first feed on | medium (RSS dates have one-second resolution, so it shows only when the two calls straddle a second); not executed | `Reconcile.TwoClocksChangeFirstDate` | `Reconcile.SecondPassIdempotent` |

The rest of the model uses `Reconcile.ReconcileEntry`, which reads the clock once.

## Left out

- Route registration and server bootstrap (`src/main.go`, `src/hello.go`): plumbing with no logic.
- Network I/O: `client.Get` and `ioutil.ReadAll` are the `Cache.Upstream` class, a map from URL to outcome; transport details are not modelled.
- SHA-256 of the cache key: the key is kept as the hashed string `"rssize" + url`, so hash collisions are not modelled.
- HTML parsing and CSS selectors (`getTitle`, `getDesc`, the selector of `getPropData`): the parser is a function from bytes to a `Document` holding what the three selectors find. What `.Text()` of a `meta` element returns is not modelled.
- JSON decoding: `json.Unmarshal` is a function from the attribute string to an optional `PropData`.
- RSS serialisation: `ToRss` is a function from the feed to an optional string; its output format is not modelled.
- Memcache expiry: the 30-minute expiration is stored with each item but never makes an item disappear.
- Concurrency: races between requests (another request adding the key or the record between the read and the write) are not modelled; each method runs alone.
- Logging: `log.Println` calls have no effect in the model.
- `strconv.Atoi` is modelled for a 64-bit platform only.
- Reconcile.ReconcileEntry, Reconcile.Run, Handler.ReconcileEntries, Handler.AdventarHandler: read the clock once (`now`) where the source calls `time.Now()` three times (lines 150, 160 and 171); `Reconcile.ReconcileEntryTwoClocks` keeps the two readings of lines 160 and 171 (see "## Findings").
- Storage faults are fixed per id within one run: an id whose datastore read or write fails (`getFails`, `putFails`) fails on every call in that run, whereas the real service fails call by call. `Reconcile.LaterPassKeepsFirstSeen` lets a later pass have different faults.
- The upstream response status is not checked by the source, and the model does not check it either: an error page is `Fetched(body)`. A URL missing from `pages` stands for a transport failure.
