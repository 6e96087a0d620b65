/** The datastore of `AdventarLastUpdated` records, reached through goon:
    one record per entry id, holding the instant the entry was first seen. */
module Store {
  import opened Adventar
  import opened Reconcile

  class Datastore {
    /** The stored records: entry id to `Updated`. */
    var records: map<int, Time>
    /** The ids looked up so far, in order. */
    var lookups: seq<int>
    /** Ids whose `Get` fails with an error other than "no such entity". */
    const getFails: set<int>
    /** Ids whose `Put` fails. */
    const putFails: set<int>

    constructor (records: map<int, Time>, getFails: set<int>, putFails: set<int>)
      ensures this.records == records && this.getFails == getFails && this.putFails == putFails
      ensures lookups == []
    {
      this.records := records;
      lookups := [];
      this.getFails := getFails;
      this.putFails := putFails;
    }

    /** `g.Get(&q)` for the record of entry `id`. */
    method Get(id: int) returns (r: Lookup)
      modifies this`lookups
      ensures lookups == old(lookups) + [id]
      ensures r == StoreError <==> id in getFails
      ensures r.Found? <==> id !in getFails && id in records
      ensures r.Found? ==> r.updated == records[id]
    {
      lookups := lookups + [id];
      r := LookupOf(records, getFails, id);
    }

    /** `g.Put(&store)`: overwrites or creates the record of `id`, unless the write fails. */
    method Put(id: int, t: Time) returns (ok: bool)
      modifies this`records
      ensures ok <==> id !in putFails
      ensures records == if ok then old(records)[id := t] else old(records)
    {
      ok := id !in putFails;
      records := PutOf(records, putFails, id, t);
    }
  }
}
