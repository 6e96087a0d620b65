/** The cache-or-fetch step of `getData`: memcache in front of the upstream
    calendar page. The key is derived from a namespace and the page URL; a miss
    fetches the page and adds it to the cache for 30 minutes, best effort. */
module Cache {
  import opened Wrappers
  import opened Adventar

  const Namespace: string := "rssize"

  /** Lifetime of a cached page, in seconds (`time.Minute * 30`). */
  const ExpirationSeconds: int := 30 * 60

  /** The cache key of a URL. The source hashes this string with SHA-256; the
      model keeps the string itself, which identifies the URL just as well. */
  function CacheKey(url: string): string
  {
    Namespace + url
  }

  /** Distinct URLs never share a cache entry. */
  lemma CacheKeyInjective(a: string, b: string)
    requires CacheKey(a) == CacheKey(b)
    ensures a == b
  {
    PrefixCancels(Namespace, a, b);
  }

  datatype CacheItem = CacheItem(value: Bytes, expiration: int)

  /** The three outcomes of `memcache.Get`. */
  datatype CacheRead = Hit(value: Bytes) | Miss | Failure

  class Memcache {
    var items: map<string, CacheItem>
    /** Whether `Get` fails with an error other than a miss. */
    const getFails: bool
    /** Whether `Add` fails for a reason other than the key being present. */
    const addFails: bool

    constructor (items: map<string, CacheItem>, getFails: bool, addFails: bool)
      ensures this.items == items && this.getFails == getFails && this.addFails == addFails
    {
      this.items := items;
      this.getFails := getFails;
      this.addFails := addFails;
    }

    /** `memcache.Get(ctx, key)`. */
    method Get(key: string) returns (r: CacheRead)
      ensures r == Failure <==> getFails
      ensures r == Miss <==> !getFails && key !in items
      ensures r.Hit? ==> key in items && r.value == items[key].value
    {
      if getFails {
        r := Failure;
      } else if key in items {
        r := Hit(items[key].value);
      } else {
        r := Miss;
      }
    }

    /** `memcache.Add(ctx, &item)`: stores only under a key that is not present. */
    method Add(key: string, value: Bytes, expiration: int) returns (ok: bool)
      modifies this`items
      ensures ok <==> !addFails && key !in old(items)
      ensures items == if ok then old(items)[key := CacheItem(value, expiration)] else old(items)
    {
      ok := !addFails && key !in items;
      if ok {
        items := items[key := CacheItem(value, expiration)];
      }
    }
  }

  /** What fetching a URL yields: the body, or the failure of `client.Get` or of `ioutil.ReadAll`. */
  datatype Fetch = Fetched(body: Bytes) | RequestFailed | ReadFailed

  /** The upstream web site: what it answers for each URL, and the log of requests sent to it. */
  class Upstream {
    const pages: map<string, Fetch>
    var requests: seq<string>

    constructor (pages: map<string, Fetch>)
      ensures this.pages == pages && requests == []
    {
      this.pages := pages;
      requests := [];
    }

    /** `client.Get(url)` followed by `ioutil.ReadAll` of the body. A URL missing
        from `pages` stands for a transport failure; an upstream error page is
        `Fetched(body)` like any other, since the status code is never checked. */
    method Get(url: string) returns (r: Fetch)
      modifies this`requests
      ensures requests == old(requests) + [url]
      ensures r == Answer(pages, url)
    {
      requests := requests + [url];
      r := Answer(pages, url);
    }
  }

  function Answer(pages: map<string, Fetch>, url: string): Fetch
  {
    if url in pages then pages[url] else RequestFailed
  }

  /** The outcome of the cache-or-fetch step: the page bytes or the error,
      the cache afterwards, and whether an upstream request was sent. */
  datatype Acquired = Acquired(body: Result<Bytes, Error>, items: map<string, CacheItem>, fetched: bool)

  /** Lines 89-114 of `getData` as a function of the cache, its faults and the
      upstream answers. A request is sent exactly on a miss; the cache only ever
      gains the page's own key, never loses or changes an item; and bytes
      yielded while the page is cached are the cached bytes. */
  function Acquire(items: map<string, CacheItem>, getFails: bool, addFails: bool, pages: map<string, Fetch>, url: string): (a: Acquired)
    ensures a.fetched <==> !getFails && CacheKey(url) !in items
    ensures forall k | k in items :: k in a.items && a.items[k] == items[k]
    ensures a.items.Keys <= items.Keys + {CacheKey(url)}
    ensures a.body.Ok? && CacheKey(url) in a.items ==> a.items[CacheKey(url)].value == a.body.value
  {
    var key := CacheKey(url);
    if getFails then Acquired(Err(CacheError), items, false)
    else if key in items then Acquired(Ok(items[key].value), items, false)
    else
      match Answer(pages, url)
      case RequestFailed => Acquired(Err(RequestError), items, true)
      case ReadFailed => Acquired(Err(ReadError), items, true)
      case Fetched(val) =>
        var stored := if addFails then items else items[key := CacheItem(val, ExpirationSeconds)];
        Acquired(Ok(val), stored, true)
  }

  /** A hit is served from the cache: no upstream request and no cache write. */
  lemma HitNeedsNoFetch(items: map<string, CacheItem>, addFails: bool, pages: map<string, Fetch>, url: string)
    requires CacheKey(url) in items
    ensures Acquire(items, false, addFails, pages, url) == Acquired(Ok(items[CacheKey(url)].value), items, false)
  {
  }

  /** A miss sends exactly one request; its body, when read, is what is used and
      what is added to the cache for 30 minutes; a failed request or read fails the step. */
  lemma MissFetches(items: map<string, CacheItem>, addFails: bool, pages: map<string, Fetch>, url: string)
    requires CacheKey(url) !in items
    ensures var a := Acquire(items, false, addFails, pages, url);
      a.fetched &&
      match Answer(pages, url)
      case Fetched(val) =>
        a.body == Ok(val) &&
        a.items == if addFails then items else items[CacheKey(url) := CacheItem(val, ExpirationSeconds)]
      case RequestFailed => a.body == Err(RequestError) && a.items == items
      case ReadFailed => a.body == Err(ReadError) && a.items == items
  {
  }

  /** A cache error other than a miss fails the step before any request is sent. */
  lemma CacheFailureIsFatal(items: map<string, CacheItem>, addFails: bool, pages: map<string, Fetch>, url: string)
    ensures Acquire(items, true, addFails, pages, url) == Acquired(Err(CacheError), items, false)
  {
  }

  /** A failing `Add` leaves the cache as it was and never changes the bytes or the error the step yields. */
  lemma AddFailureIsHarmless(items: map<string, CacheItem>, pages: map<string, Fetch>, url: string)
    ensures Acquire(items, false, true, pages, url).body == Acquire(items, false, false, pages, url).body
    ensures Acquire(items, false, true, pages, url).items == items
  {
  }

  /** Two requests for the same page in a row send at most one upstream request:
      once a fetched page is added, the next request is served from the cache
      with the same bytes, whatever the upstream answers by then. */
  lemma SecondRequestServedFromCache(items: map<string, CacheItem>, pages: map<string, Fetch>,
                                     addFails2: bool, pages2: map<string, Fetch>, url: string)
    requires Acquire(items, false, false, pages, url).body.Ok?
    ensures var a1 := Acquire(items, false, false, pages, url);
      var a2 := Acquire(a1.items, false, addFails2, pages2, url);
      a2 == Acquired(a1.body, a1.items, false)
  {
  }
}
