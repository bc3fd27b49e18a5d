/** The `youtubeVideoCache` collection: documents keyed by video id, each one a cached record.
    The class holds the collection's contents and offers the operations the service performs
    on it: read a document, write one in full, delete one, and the `lastFetchedAt < t` query
    with a limit. */
module CacheStore {
  import opened Wrappers
  import opened Lists
  import opened CacheModel

  /** `ids` is a possible answer to `where('lastFetchedAt', '<', threshold).limit(limit)` on
      `docs`: at most `limit` distinct documents older than `threshold`, in an order the
      model leaves open, and all of them when fewer than `limit` come back. */
  predicate IsSelection(docs: map<string, CacheEntry>, ids: seq<string>, threshold: int, limit: nat) {
    && |ids| <= limit && NoDups(ids)
    && (forall id | id in ids :: id in docs && docs[id].lastFetchedAt < threshold)
    && (|ids| < limit ==> forall id | id in docs && docs[id].lastFetchedAt < threshold :: id in ids)
  }

  class Store {
    var docs: map<string, CacheEntry>

    constructor(initial: map<string, CacheEntry>)
      ensures docs == initial
    {
      docs := initial;
    }

    /** `doc(id).get()`. */
    method Get(id: string) returns (r: Option<CacheEntry>)
      ensures id in docs <==> r.Some?
      ensures r.Some? ==> r.value == docs[id]
    {
      r := if id in docs then Some(docs[id]) else None;
    }

    /** `doc(id).set(e)`: the document is replaced as a whole. */
    method Set(id: string, e: CacheEntry)
      modifies this
      ensures docs == old(docs)[id := e]
    {
      docs := docs[id := e];
    }

    /** `doc(id).delete()`; deleting a missing document is not an error. */
    method Delete(id: string)
      modifies this
      ensures docs == old(docs) - {id}
    {
      docs := docs - {id};
    }

    /** `where('lastFetchedAt', '<', threshold).limit(limit).get()`. */
    method QueryOlderThan(threshold: int, limit: nat) returns (ids: seq<string>)
      ensures IsSelection(docs, ids, threshold, limit)
    {
      var matching := set id | id in docs && docs[id].lastFetchedAt < threshold;
      var left := matching;
      ids := [];
      while |ids| < limit && left != {}
        invariant left <= matching && |ids| <= limit && NoDups(ids)
        invariant forall id | id in ids :: id in matching && id !in left
        invariant forall id | id in matching :: id in ids || id in left
        decreases left
      {
        var id :| id in left;
        ids := ids + [id];
        left := left - {id};
      }
    }

    /** A write batch of deletions, committed at once. */
    method DeleteAll(ids: set<string>)
      modifies this
      ensures docs == old(docs) - ids
    {
      docs := docs - ids;
    }

    /** `updateCache`: the normalised record for the item replaces the document. */
    method UpdateCache(videoId: string, item: ApiItem, now: int) returns (e: CacheEntry)
      modifies this
      ensures e == Normalize(videoId, item, now)
      ensures docs == old(docs)[videoId := e]
    {
      e := Normalize(videoId, item, now);
      Set(videoId, e);
    }
  }
}
