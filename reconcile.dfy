/** The entry loop of `AdventarHandler` as a pure specification: for each
    entry, in order, a get-or-create of its "first seen" timestamp, and a feed
    item unless the URL is empty or the lookup fails. `Run` gives the items and
    the store after a whole pass; the lemmas below describe that result
    independently of the loop: which entries make it into the feed, with which
    timestamps, and what the store holds afterwards. */
module Reconcile {
  import opened Adventar

  /** What `g.Get(&q)` reports for an entry id. */
  datatype Lookup = Found(updated: Time) | NotFound | StoreError

  /** The datastore's answer to a lookup: an id in `getFails` meets a storage
      error; otherwise the stored record, if any. */
  function LookupOf(records: map<int, Time>, getFails: set<int>, id: int): Lookup
  {
    if id in getFails then StoreError
    else if id in records then Found(records[id])
    else NotFound
  }

  /** The store after `g.Put`: the write is lost when the id is in `putFails`. */
  function PutOf(records: map<int, Time>, putFails: set<int>, id: int, t: Time): map<int, Time>
  {
    if id in putFails then records else records[id := t]
  }

  /** The feed items emitted so far and the store as it stands. */
  datatype Pass = Pass(items: seq<Item>, records: map<int, Time>)

  /** One iteration of the loop over the entries as the source writes it, with
      its two readings of the clock: `itemTime` (line 160) becomes the item's
      time when the id is new, `storeTime` (line 171) is what gets stored. */
  function ReconcileEntryTwoClocks(p: Pass, e: Entry, getFails: set<int>, putFails: set<int>, itemTime: Time, storeTime: Time): (r: Pass)
    ensures r.items == p.items <==> !Qualifies(e, getFails)
    ensures r.items != p.items ==>
      r.items == p.items + [Item(e.title, e.url, if e.id in p.records then p.records[e.id] else itemTime)]
    ensures forall id | id in p.records :: id in r.records && r.records[id] == p.records[id]
    ensures r.records.Keys <= p.records.Keys + {e.id}
    ensures r.records ==
      if Qualifies(e, getFails) && e.id !in p.records && e.id !in putFails then p.records[e.id := storeTime]
      else p.records
  {
    if e.url == "" then p
    else
      match LookupOf(p.records, getFails, e.id)
      case Found(t) => Pass(p.items + [Item(e.title, e.url, t)], p.records)
      case NotFound => Pass(p.items + [Item(e.title, e.url, itemTime)], PutOf(p.records, putFails, e.id, storeTime))
      case StoreError => p
  }

  /** One iteration of the loop, with one instant `now` for both readings of
      the clock: an entry that qualifies gets the item `FeedItem` describes, and
      `now` is stored under its id exactly when it was new and the `Put` succeeds. */
  function ReconcileEntry(p: Pass, e: Entry, getFails: set<int>, putFails: set<int>, now: Time): (r: Pass)
    ensures r.items == if Qualifies(e, getFails) then p.items + [FeedItem(e, p.records, now)] else p.items
    ensures r.records ==
      if Qualifies(e, getFails) && e.id !in p.records && e.id !in putFails then p.records[e.id := now]
      else p.records
  {
    ReconcileEntryTwoClocks(p, e, getFails, putFails, now, now)
  }

  /** The loop over all entries, starting with no items and the store `records`:
      at most one item per entry, and no stored id is ever lost. */
  function Run(es: seq<Entry>, records: map<int, Time>, getFails: set<int>, putFails: set<int>, now: Time): (r: Pass)
    ensures |r.items| <= |es|
    ensures records.Keys <= r.records.Keys
    decreases |es|
  {
    if es == [] then Pass([], records)
    else ReconcileEntry(Run(es[..|es| - 1], records, getFails, putFails, now), es[|es| - 1], getFails, putFails, now)
  }

  /** The ids the loop looks up in the datastore, in order: those of the entries that have a URL. */
  function LookedUp(es: seq<Entry>): (ids: seq<int>)
    ensures |ids| <= |es|
    decreases |es|
  {
    if es == [] then []
    else LookedUp(es[..|es| - 1]) + (if es[|es| - 1].url != "" then [es[|es| - 1].id] else [])
  }

  // ----- Reference definitions -----

  /** An entry reaches the feed when it has a URL and its lookup does not fail. */
  predicate Qualifies(e: Entry, getFails: set<int>)
  {
    e.url != "" && e.id !in getFails
  }

  /** The qualifying entries, in source order. */
  function Kept(es: seq<Entry>, getFails: set<int>): seq<Entry>
    decreases |es|
  {
    if es == [] then []
    else
      var k := Kept(es[..|es| - 1], getFails);
      if Qualifies(es[|es| - 1], getFails) then k + [es[|es| - 1]] else k
  }

  /** The timestamp an id was first seen with, `now` if it had never been stored. */
  function FirstSeen(records: map<int, Time>, id: int, now: Time): Time
  {
    if id in records then records[id] else now
  }

  /** The feed item an entry should produce against the store `records`. */
  function FeedItem(e: Entry, records: map<int, Time>, now: Time): Item
  {
    Item(e.title, e.url, FirstSeen(records, e.id, now))
  }

  /** The ids a pass writes, if they are not yet stored: those of qualifying entries whose `Put` succeeds. */
  function StoredIds(es: seq<Entry>, getFails: set<int>, putFails: set<int>): set<int>
  {
    set i | 0 <= i < |es| && Qualifies(es[i], getFails) && es[i].id !in putFails :: es[i].id
  }

  /** The store after a pass: old records unchanged, `now` for every newly stored id. */
  function StoreAfter(records: map<int, Time>, es: seq<Entry>, getFails: set<int>, putFails: set<int>, now: Time): map<int, Time>
  {
    map id | id in records.Keys + StoredIds(es, getFails, putFails) :: FirstSeen(records, id, now)
  }

  // ----- Lemmas -----

  lemma StoredIdsSnoc(es: seq<Entry>, e: Entry, getFails: set<int>, putFails: set<int>)
    ensures StoredIds(es + [e], getFails, putFails) ==
            StoredIds(es, getFails, putFails) + (if Qualifies(e, getFails) && e.id !in putFails then {e.id} else {})
  {
    var es' := es + [e];
    forall id | id in StoredIds(es', getFails, putFails)
      ensures id in StoredIds(es, getFails, putFails) || (Qualifies(e, getFails) && e.id !in putFails && id == e.id)
    {
      var i :| 0 <= i < |es'| && Qualifies(es'[i], getFails) && es'[i].id !in putFails && es'[i].id == id;
      if i < |es| {
        assert es'[i] == es[i];
      }
    }
    forall id | id in StoredIds(es, getFails, putFails)
      ensures id in StoredIds(es', getFails, putFails)
    {
      var i :| 0 <= i < |es| && Qualifies(es[i], getFails) && es[i].id !in putFails && es[i].id == id;
      assert es'[i] == es[i];
    }
    if Qualifies(e, getFails) && e.id !in putFails {
      assert es'[|es|] == e;
    }
  }

  /** The store after a pass is the old store, untouched, plus `now` for every
      qualifying entry id that was not stored and whose `Put` succeeded. */
  lemma {:induction false} StoreAfterPass(es: seq<Entry>, records: map<int, Time>, getFails: set<int>, putFails: set<int>, now: Time)
    ensures Run(es, records, getFails, putFails, now).records == StoreAfter(records, es, getFails, putFails, now)
    decreases |es|
  {
    if es != [] {
      var es', e := es[..|es| - 1], es[|es| - 1];
      assert es == es' + [e];
      StoreAfterPass(es', records, getFails, putFails, now);
      StoredIdsSnoc(es', e, getFails, putFails);
    }
  }

  /** The items of a pass are the qualifying entries, in order, each carrying
      its title and URL and the timestamp it was first seen with. */
  lemma {:induction false} ItemsOfPass(es: seq<Entry>, records: map<int, Time>, getFails: set<int>, putFails: set<int>, now: Time)
    ensures var p := Run(es, records, getFails, putFails, now);
      |p.items| == |Kept(es, getFails)| &&
      forall k | 0 <= k < |p.items| :: p.items[k] == FeedItem(Kept(es, getFails)[k], records, now)
    decreases |es|
  {
    if es != [] {
      var es', e := es[..|es| - 1], es[|es| - 1];
      ItemsOfPass(es', records, getFails, putFails, now);
      StoreAfterPass(es', records, getFails, putFails, now);
    }
  }

  /** Every qualifying entry occurs in the feed exactly as often as in the
      entry list, and no other entry occurs at all. */
  lemma {:induction false} KeptIsFilter(es: seq<Entry>, getFails: set<int>)
    ensures forall e :: multiset(Kept(es, getFails))[e] == if Qualifies(e, getFails) then multiset(es)[e] else 0
    decreases |es|
  {
    if es != [] {
      var es', e := es[..|es| - 1], es[|es| - 1];
      assert es == es' + [e];
      KeptIsFilter(es', getFails);
    }
  }

  /** An entry with an empty URL, or whose lookup fails, leaves the pass exactly as it was. */
  lemma SkippedEntryHasNoEffect(es: seq<Entry>, e: Entry, records: map<int, Time>, getFails: set<int>, putFails: set<int>, now: Time)
    requires !Qualifies(e, getFails)
    ensures Run(es + [e], records, getFails, putFails, now) == Run(es, records, getFails, putFails, now)
  {
    assert (es + [e])[..|es|] == es;
  }

  /** An entry with an empty URL is never looked up in the datastore. */
  lemma EmptyUrlNotLookedUp(es: seq<Entry>, e: Entry)
    requires e.url == ""
    ensures LookedUp(es + [e]) == LookedUp(es)
  {
    assert (es + [e])[..|es|] == es;
  }

  /** Write-once: a stored timestamp is never overwritten or removed. */
  lemma {:induction false} WriteOnce(es: seq<Entry>, records: map<int, Time>, getFails: set<int>, putFails: set<int>, now: Time)
    ensures var after := Run(es, records, getFails, putFails, now).records;
      forall id | id in records :: id in after && after[id] == records[id]
  {
    StoreAfterPass(es, records, getFails, putFails, now);
  }

  /** A pass writes only `now`, and only under the id of an entry that has a URL. */
  lemma {:induction false} OnlyListedIdsWritten(es: seq<Entry>, records: map<int, Time>, getFails: set<int>, putFails: set<int>, now: Time)
    ensures var after := Run(es, records, getFails, putFails, now).records;
      forall id | id in after && id !in records ::
        after[id] == now && exists i | 0 <= i < |es| :: es[i].id == id && es[i].url != ""
  {
    StoreAfterPass(es, records, getFails, putFails, now);
  }

  /** A failed `Put` never costs an item: the items do not depend on which writes fail. */
  lemma {:induction false} PutFailuresKeepItems(es: seq<Entry>, records: map<int, Time>, getFails: set<int>, putFails: set<int>, now: Time)
    ensures Run(es, records, getFails, putFails, now).items == Run(es, records, getFails, {}, now).items
  {
    ItemsOfPass(es, records, getFails, putFails, now);
    ItemsOfPass(es, records, getFails, {}, now);
  }

  /** After a pass in which every `Put` succeeded, a second pass over the same
      entries, at any later time and whatever writes fail, emits the same items
      with the same timestamps and writes nothing. */
  lemma {:induction false} SecondPassIdempotent(es: seq<Entry>, records: map<int, Time>, getFails: set<int>, putFails: set<int>, now1: Time, now2: Time)
    ensures var p1 := Run(es, records, getFails, {}, now1);
      Run(es, p1.records, getFails, putFails, now2) == p1
  {
    var p1 := Run(es, records, getFails, {}, now1);
    var p2 := Run(es, p1.records, getFails, putFails, now2);
    StoreAfterPass(es, records, getFails, {}, now1);
    StoreAfterPass(es, p1.records, getFails, putFails, now2);
    assert StoredIds(es, getFails, putFails) <= StoredIds(es, getFails, {});
    assert p2.records == p1.records;
    ItemsOfPass(es, records, getFails, {}, now1);
    ItemsOfPass(es, p1.records, getFails, putFails, now2);
    KeptStored(es, getFails);
    assert p2.items == p1.items;
  }

  /** A later pass, over any entries and with any read or write failures and
      any clock, keeps every record of an earlier pass, and gives every entry
      whose id the earlier pass stored the same date the earlier pass gave it. */
  lemma {:induction false} LaterPassKeepsFirstSeen(es1: seq<Entry>, es2: seq<Entry>, records: map<int, Time>,
                                                   getFails1: set<int>, putFails1: set<int>, now1: Time,
                                                   getFails2: set<int>, putFails2: set<int>, now2: Time)
    ensures var p1 := Run(es1, records, getFails1, putFails1, now1);
      var p2 := Run(es2, p1.records, getFails2, putFails2, now2);
      var k1, k2 := Kept(es1, getFails1), Kept(es2, getFails2);
      (forall id | id in p1.records :: id in p2.records && p2.records[id] == p1.records[id]) &&
      |p1.items| == |k1| && |p2.items| == |k2| &&
      (forall k | 0 <= k < |p2.items| && k2[k].id in p1.records :: p2.items[k].created == p1.records[k2[k].id]) &&
      (forall j, k | 0 <= j < |p1.items| && 0 <= k < |p2.items| && k1[j].id == k2[k].id && k1[j].id in p1.records ::
         p2.items[k].created == p1.items[j].created)
  {
    var p1 := Run(es1, records, getFails1, putFails1, now1);
    CreatedMatchesStore(es1, records, getFails1, putFails1, now1);
    ItemsOfPass(es2, p1.records, getFails2, putFails2, now2);
    WriteOnce(es2, p1.records, getFails2, putFails2, now2);
  }

  /** The ids of the qualifying entries are exactly the ids a pass without write failures stores. */
  lemma {:induction false} KeptStored(es: seq<Entry>, getFails: set<int>)
    ensures forall k | 0 <= k < |Kept(es, getFails)| :: Kept(es, getFails)[k].id in StoredIds(es, getFails, {})
    decreases |es|
  {
    if es != [] {
      var es', e := es[..|es| - 1], es[|es| - 1];
      assert es == es' + [e];
      KeptStored(es', getFails);
      StoredIdsSnoc(es', e, getFails, {});
    }
  }

  /** Each item carries the timestamp the store holds for its id after the
      pass, or `now` when the store holds none (its `Put` failed). */
  lemma {:induction false} CreatedMatchesStore(es: seq<Entry>, records: map<int, Time>, getFails: set<int>, putFails: set<int>, now: Time)
    ensures var p := Run(es, records, getFails, putFails, now);
      |p.items| == |Kept(es, getFails)| &&
      forall k | 0 <= k < |p.items| ::
        var id := Kept(es, getFails)[k].id;
        p.items[k].created == if id in p.records then p.records[id] else now
  {
    ItemsOfPass(es, records, getFails, putFails, now);
    StoreAfterPass(es, records, getFails, putFails, now);
  }

  /** With the source's two clock readings, a new entry is emitted with the
      first reading but stored with the second; the next feed then gives it
      the second, so its date changes between the first two feeds whenever
      the clock moved between lines 160 and 171. */
  lemma TwoClocksChangeFirstDate(e: Entry, records: map<int, Time>, getFails: set<int>, putFails: set<int>,
                                 t1: Time, t2: Time, t3: Time, t4: Time)
    requires Qualifies(e, getFails) && e.id !in records && e.id !in putFails && t1 != t2
    ensures var p1 := ReconcileEntryTwoClocks(Pass([], records), e, getFails, putFails, t1, t2);
      var p2 := ReconcileEntryTwoClocks(Pass([], p1.records), e, getFails, putFails, t3, t4);
      |p1.items| == 1 && |p2.items| == 1 && p1.items[0].created == t1 && p2.items[0].created == t2 &&
      p1.items[0].created != p2.items[0].created
  {
  }
}
