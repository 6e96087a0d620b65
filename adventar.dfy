/** The data model of the adventar handler: the decoded calendar payload,
    the page data handed to the feed builder, and the feed itself. */
module Adventar {
  import opened Wrappers

  /** An instant, as returned by `time.Now()` (e.g. nanoseconds since the epoch). */
  type Time = int

  /** One byte of a fetched page or of a cached value. */
  newtype Byte = x: int | 0 <= x < 256

  type Bytes = seq<Byte>

  /** One day of the calendar (the JSON object `{"id", "date", "image", "title", "url", "comment"}`). */
  datatype Entry = Entry(id: int, date: string, image: string, title: string, url: string, comment: string)

  datatype Calendar = Calendar(id: int, year: int)

  /** The value of the `data-react-props` attribute once decoded. */
  datatype PropData = PropData(calendar: Calendar, entries: seq<Entry>)

  /** Everything `getData` extracts from one calendar page. */
  datatype Data = Data(pageTitle: string, desc: string, pageURL: string, propData: PropData)

  /** A feed item: title, link and creation time. */
  datatype Item = Item(title: string, link: string, created: Time)

  /** The feed header and its items, before RSS serialisation. */
  datatype Feed = Feed(title: string, link: string, description: string, created: Time, items: seq<Item>)

  /** The reasons `getData` fails; every one of them becomes a 500 response. */
  datatype Error =
    | CacheError      // memcache.Get failed with something other than a miss
    | RequestError    // client.Get failed
    | ReadError       // ioutil.ReadAll on the response body failed
    | ParseError      // goquery could not build a document
    | PropNotFound    // no CalendarContainer div carrying data-react-props
    | UnmarshalError  // json.Unmarshal rejected the attribute value

  /** The upstream page of calendar `calid`. */
  function CalendarUrl(calid: string): string
  {
    "https://adventar.org/calendars/" + calid
  }

  /** A common prefix cancels: equal strings with the same prefix have equal rests. */
  lemma PrefixCancels(p: string, a: string, b: string)
    requires p + a == p + b
    ensures a == b
  {
    assert a == (p + a)[|p|..];
    assert b == (p + b)[|p|..];
  }

  lemma CalendarUrlInjective(a: string, b: string)
    requires CalendarUrl(a) == CalendarUrl(b)
    ensures a == b
  {
    PrefixCancels("https://adventar.org/calendars/", a, b);
  }
}
