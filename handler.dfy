/** `getData` and `AdventarHandler`: the request for `/api/adventar/:calid`.
    The id is checked with `strconv.Atoi`; the page comes from memcache or
    upstream; every entry with a URL is reconciled against the datastore and
    becomes a feed item; the feed is written as RSS. */
module Handler {
  import opened Wrappers
  import opened Adventar
  import opened Numeric
  import opened Reconcile
  import opened Store
  import opened Cache
  import opened Extract

  /** The page data `getData` yields after the cache-or-fetch step `a`. */
  function DataOf(a: Acquired, url: string, lib: Library): Result<Data, Error>
  {
    match a.body
    case Ok(body) => Parse(body, url, lib)
    case Err(e) => Err(e)
  }

  /** `getData(ctx, calid)`: the cache and the upstream log change as `Acquire`
      says, and the result is the page data or the first error met. */
  method GetData(calid: string, cache: Memcache, web: Upstream, lib: Library) returns (r: Result<Data, Error>)
    modifies cache`items, web`requests
    ensures var url := CalendarUrl(calid);
      var a := Acquire(old(cache.items), cache.getFails, cache.addFails, web.pages, url);
      cache.items == a.items &&
      web.requests == old(web.requests) + (if a.fetched then [url] else []) &&
      r == DataOf(a, url, lib)
  {
    var url := CalendarUrl(calid);
    var hash := CacheKey(url);
    var body: Bytes;
    var c := cache.Get(hash);
    if c.Hit? {
      body := c.value;
    } else if c == Miss {
      var resp := web.Get(url);
      match resp {
        case RequestFailed =>
          return Err(RequestError);
        case ReadFailed =>
          return Err(ReadError);
        case Fetched(val) =>
          // a failed Add is ignored
          var added := cache.Add(hash, val, ExpirationSeconds);
          body := val;
      }
    } else {
      return Err(CacheError);
    }
    r := Parse(body, url, lib);
  }

  /** The loop of `AdventarHandler` over the entries: appends to `feed` the
      items of `Run` and leaves the datastore as `Run` says, having looked up
      exactly the ids of the entries with a URL, in order. */
  method ReconcileEntries(g: Datastore, entries: seq<Entry>, feed: Feed, now: Time) returns (out: Feed)
    modifies g`records, g`lookups
    ensures var p := Run(entries, old(g.records), g.getFails, g.putFails, now);
      out == feed.(items := feed.items + p.items) && g.records == p.records
    ensures g.lookups == old(g.lookups) + LookedUp(entries)
  {
    out := feed;
    for i := 0 to |entries|
      invariant var p := Run(entries[..i], old(g.records), g.getFails, g.putFails, now);
        out == feed.(items := feed.items + p.items) && g.records == p.records
      invariant g.lookups == old(g.lookups) + LookedUp(entries[..i])
    {
      assert entries[..i + 1][..i] == entries[..i];
      var entry := entries[i];
      if entry.url == "" {
        continue;
      }
      var updated := now;
      var q := g.Get(entry.id);
      if q.Found? {
        updated := q.updated;
      } else if q == NotFound {
        // a failed Put is only logged
        var stored := g.Put(entry.id, now);
      } else {
        continue;
      }
      out := out.(items := out.items + [Item(entry.title, entry.url, updated)]);
    }
    assert entries[..|entries|] == entries;
  }

  /** The HTTP responses: `c.String` for 404 and 500, `c.Blob` for the feed. */
  datatype Response = Text(status: int, text: string) | Blob(status: int, contentType: string, data: string)

  const NotFoundResponse: Response := Text(404, "Not Found")
  const ErrorResponse: Response := Text(500, "Error")

  /** The response for a finished feed: the RSS document as `text/xml` with
      status 200 exactly when `ToRss` succeeds, otherwise the 500 response. */
  function Render(feed: Feed, lib: Library): (r: Response)
    ensures r.status == 200 <==> lib.toRss(feed).Some?
    ensures r.Blob? ==> r.contentType == "text/xml" && lib.toRss(feed) == Some(r.data)
    ensures r.Text? ==> r == ErrorResponse
  {
    match lib.toRss(feed)
    case Some(rss) => Blob(200, "text/xml", rss)
    case None => ErrorResponse
  }

  /** `AdventarHandler`. A non-numeric id is answered 404 before anything is
      touched. Otherwise the cache and upstream change as `Acquire` says; a
      failure of `getData` is answered 500 and leaves the datastore alone; and
      a page that decodes gives the feed with the page's title, URL and
      description, created `now`, whose items are those of `Run`, with the
      datastore left as `Run` says. */
  method AdventarHandler(calid: string, cache: Memcache, web: Upstream, g: Datastore, lib: Library, now: Time)
    returns (resp: Response)
    modifies cache`items, web`requests, g`records, g`lookups
    ensures Atoi(calid).None? ==>
      resp == NotFoundResponse && unchanged(cache) && unchanged(web) && unchanged(g)
    ensures Atoi(calid).Some? ==>
      var url := CalendarUrl(calid);
      var a := Acquire(old(cache.items), cache.getFails, cache.addFails, web.pages, url);
      var d := DataOf(a, url, lib);
      cache.items == a.items &&
      web.requests == old(web.requests) + (if a.fetched then [url] else []) &&
      (d.Err? ==> resp == ErrorResponse && g.records == old(g.records) && g.lookups == old(g.lookups)) &&
      (d.Ok? ==>
        var p := Run(d.value.propData.entries, old(g.records), g.getFails, g.putFails, now);
        g.records == p.records &&
        g.lookups == old(g.lookups) + LookedUp(d.value.propData.entries) &&
        resp == Render(Feed(d.value.pageTitle, d.value.pageURL, d.value.desc, now, p.items), lib))
  {
    var n := Atoi(calid);
    if n.None? {
      return NotFoundResponse;
    }
    var data := GetData(calid, cache, web, lib);
    if data.Err? {
      return ErrorResponse;
    }
    var feed := Feed(data.value.pageTitle, data.value.pageURL, data.value.desc, now, []);
    feed := ReconcileEntries(g, data.value.propData.entries, feed, now);
    ghost var p := Run(data.value.propData.entries, old(g.records), g.getFails, g.putFails, now);
    assert [] + p.items == p.items;
    resp := Render(feed, lib);
  }
}
