/** The cloud functions of the metadata cache: the callable `getYouTubeVideosMetadata`, which
    serves fresh cached records and fetches the others, and the two scheduled sweeps,
    `refreshPopularYouTubeMetadata` and `cleanupExpiredCache`.

    The requests the callable would run concurrently run here one after another, and one
    instant `now` stands for every clock reading of an invocation. */
module MetadataService {
  import opened Wrappers
  import opened Lists
  import opened CacheModel
  import opened CacheStore
  import opened Upstream

  /** The `videoIds` field of a request: absent (or otherwise falsy), not an array, or an
      array of ids. */
  datatype VideoIdsField = Missing | NotArray | Array(ids: seq<string>)

  /** A request for `id` is answered from the cache: its document could be read, exists,
      and was fetched less than the TTL ago. */
  predicate IsHit(docs: map<string, CacheEntry>, readFails: set<string>, now: int, id: string) {
    id !in readFails && id in docs && now - docs[id].lastFetchedAt < TTL_MS
  }

  /** The ids that need a refresh, in request order, repeated ids repeated. */
  function Misses(ids: seq<string>, docs: map<string, CacheEntry>, readFails: set<string>, now: int): (r: seq<string>)
    ensures |r| <= |ids|
    ensures forall id :: id in r <==> id in ids && !IsHit(docs, readFails, now, id)
    ensures (forall id | id in ids :: IsHit(docs, readFails, now, id)) ==> r == []
  {
    if ids == [] then [] else
      var init := Misses(ids[..|ids| - 1], docs, readFails, now);
      var id := ids[|ids| - 1];
      assert ids == ids[..|ids| - 1] + [id];
      if IsHit(docs, readFails, now, id) then init else init + [id]
  }

  /** The answer for one requested id: the cached record on a hit, the freshly fetched record
      when upstream returned the video, and a placeholder otherwise. */
  function ResponseFor(id: string, docs: map<string, CacheEntry>, readFails: set<string>, now: int,
                       fetched: map<string, ApiItem>): VideoView
  {
    if IsHit(docs, readFails, now, id) then ViewOf(docs[id])
    else if id in fetched then ViewOf(Normalize(id, fetched[id], now))
    else Placeholder(id, now)
  }

  /** The response to a request for `ids`: one answer per requested id. */
  function Response(ids: seq<string>, docs: map<string, CacheEntry>, readFails: set<string>, now: int,
                    fetched: map<string, ApiItem>): (r: map<string, VideoView>)
    ensures forall id :: id in r <==> id in ids
  {
    map id | id in ids :: ResponseFor(id, docs, readFails, now, fetched)
  }

  /** The collection after the missed ids that upstream returned are written, in order. */
  function StoreAfter(docs: map<string, CacheEntry>, misses: seq<string>, fetched: map<string, ApiItem>,
                      now: int): map<string, CacheEntry>
  {
    if misses == [] then docs else
      var d := StoreAfter(docs, misses[..|misses| - 1], fetched, now);
      var id := misses[|misses| - 1];
      if id in fetched then d[id := Normalize(id, fetched[id], now)] else d
  }

  /** Only the missed ids upstream returned are written, each with its normalised record;
      every other document is left as it was. */
  lemma {:induction false} StoreAfterAt(docs: map<string, CacheEntry>, misses: seq<string>,
                                        fetched: map<string, ApiItem>, now: int, k: string)
    ensures k in StoreAfter(docs, misses, fetched, now) <==> k in docs || (k in misses && k in fetched)
    ensures k in misses && k in fetched ==> StoreAfter(docs, misses, fetched, now)[k] == Normalize(k, fetched[k], now)
    ensures k !in misses && k in docs ==> StoreAfter(docs, misses, fetched, now)[k] == docs[k]
  {
    if misses != [] {
      var init := misses[..|misses| - 1];
      assert misses == init + [misses[|misses| - 1]];
      StoreAfterAt(docs, init, fetched, now, k);
    }
  }

  /** The answers for the requested ids that are hits or among `done`. */
  function Answered(ids: seq<string>, docs: map<string, CacheEntry>, readFails: set<string>, now: int,
                    fetched: map<string, ApiItem>, done: seq<string>): map<string, VideoView>
  {
    map id | id in ids && (IsHit(docs, readFails, now, id) || id in done) :: ResponseFor(id, docs, readFails, now, fetched)
  }

  lemma AnsweredStep(ids: seq<string>, docs: map<string, CacheEntry>, readFails: set<string>, now: int,
                     fetched: map<string, ApiItem>, done: seq<string>, id: string)
    requires id in ids
    ensures Answered(ids, docs, readFails, now, fetched, done + [id]) ==
            Answered(ids, docs, readFails, now, fetched, done)[id := ResponseFor(id, docs, readFails, now, fetched)]
  {
  }

  /** Once every missed id is done, the answers are the whole response. */
  lemma AnsweredAll(ids: seq<string>, docs: map<string, CacheEntry>, readFails: set<string>, now: int,
                    fetched: map<string, ApiItem>)
    ensures Answered(ids, docs, readFails, now, fetched, Misses(ids, docs, readFails, now)) ==
            Response(ids, docs, readFails, now, fetched)
  {
  }

  /** The answers the cache pass gives: the cached view of every requested hit. */
  function HitViews(ids: seq<string>, docs: map<string, CacheEntry>, readFails: set<string>, now: int)
    : map<string, VideoView>
  {
    map id | id in ids && IsHit(docs, readFails, now, id) :: ViewOf(docs[id])
  }

  lemma HitViewsStep(ids: seq<string>, docs: map<string, CacheEntry>, readFails: set<string>, now: int, id: string)
    ensures HitViews(ids + [id], docs, readFails, now) ==
            if IsHit(docs, readFails, now, id) then HitViews(ids, docs, readFails, now)[id := ViewOf(docs[id])]
            else HitViews(ids, docs, readFails, now)
  {
  }

  /** The hits' answers are the answers before anything is fetched. */
  lemma HitViewsAnswered(ids: seq<string>, docs: map<string, CacheEntry>, readFails: set<string>, now: int,
                         fetched: map<string, ApiItem>)
    ensures HitViews(ids, docs, readFails, now) == Answered(ids, docs, readFails, now, fetched, [])
  {
  }

  /** The cache pass of the callable: the answers for the hits and, in request order, the ids
      that need a refresh. It reads the collection and changes nothing. */
  method CheckCache(store: Store, ids: seq<string>, now: int, readFails: set<string>)
    returns (results: map<string, VideoView>, needsRefresh: seq<string>)
    ensures needsRefresh == Misses(ids, store.docs, readFails, now)
    ensures results == HitViews(ids, store.docs, readFails, now)
  {
    results := map[];
    needsRefresh := [];
    var i := 0;
    while i < |ids|
      invariant 0 <= i <= |ids|
      invariant needsRefresh == Misses(ids[..i], store.docs, readFails, now)
      invariant results == HitViews(ids[..i], store.docs, readFails, now)
    {
      var id := ids[i];
      var cached: Option<CacheEntry> := None;
      if id !in readFails {
        cached := store.Get(id);
      }
      assert ids[..i + 1] == ids[..i] + [id];
      HitViewsStep(ids[..i], store.docs, readFails, now, id);
      if cached.Some? && now - cached.value.lastFetchedAt < TTL_MS {
        results := results[id := ViewOf(cached.value)];
      } else {
        needsRefresh := needsRefresh + [id];
      }
      i := i + 1;
    }
    assert ids[..i] == ids;
  }

  /** One more missed id written back: its record, when upstream returned it, and its answer. */
  lemma WriteBackStep(ids: seq<string>, docs: map<string, CacheEntry>, readFails: set<string>, now: int,
                      fetched: map<string, ApiItem>, done: seq<string>, id: string)
    requires id in ids && !IsHit(docs, readFails, now, id)
    ensures StoreAfter(docs, done + [id], fetched, now) ==
            if id in fetched then StoreAfter(docs, done, fetched, now)[id := Normalize(id, fetched[id], now)]
            else StoreAfter(docs, done, fetched, now)
    ensures Answered(ids, docs, readFails, now, fetched, done + [id]) ==
            Answered(ids, docs, readFails, now, fetched, done)[id :=
              if id in fetched then ViewOf(Normalize(id, fetched[id], now)) else Placeholder(id, now)]
  {
    assert (done + [id])[..|done|] == done;
    AnsweredStep(ids, docs, readFails, now, fetched, done, id);
  }

  /** The write-back pass of the callable: each missed id upstream returned is written with
      `updateCache` and answered with its new record; each other one gets the placeholder. */
  method WriteBack(store: Store, ids: seq<string>, ghost docs: map<string, CacheEntry>, readFails: set<string>,
                   now: int, fetched: map<string, ApiItem>, needsRefresh: seq<string>, hits: map<string, VideoView>)
    returns (results: map<string, VideoView>)
    requires store.docs == docs
    requires forall id | id in needsRefresh :: id in ids && !IsHit(docs, readFails, now, id)
    requires hits == Answered(ids, docs, readFails, now, fetched, [])
    modifies store
    ensures store.docs == StoreAfter(docs, needsRefresh, fetched, now)
    ensures results == Answered(ids, docs, readFails, now, fetched, needsRefresh)
  {
    results := hits;
    var j := 0;
    while j < |needsRefresh|
      invariant 0 <= j <= |needsRefresh|
      invariant store.docs == StoreAfter(docs, needsRefresh[..j], fetched, now)
      invariant results == Answered(ids, docs, readFails, now, fetched, needsRefresh[..j])
    {
      var id := needsRefresh[j];
      assert needsRefresh[..j + 1] == needsRefresh[..j] + [id];
      WriteBackStep(ids, docs, readFails, now, fetched, needsRefresh[..j], id);
      if id in fetched {
        var e := store.UpdateCache(id, fetched[id], now);
        results := results[id := ViewOf(e)];
      } else {
        results := results[id := Placeholder(id, now)];
      }
      j := j + 1;
    }
    assert needsRefresh[..j] == needsRefresh;
  }

  const ARRAY_MESSAGE := "videoIds must be an array"
  const LIMIT_MESSAGE := "Maximum 100 video IDs allowed"

  /** `getYouTubeVideosMetadata`. `apiKey` is the configured key ("" when none is), `api` the
      YouTube Data API, `readFails` the ids whose cache read throws. `calls` records the
      batches sent upstream. */
  method GetYouTubeVideosMetadata(store: Store, field: VideoIdsField, now: int, apiKey: string, api: Api,
                                  readFails: set<string>)
    returns (r: Result<map<string, VideoView>, HttpsError>, calls: seq<seq<string>>)
    modifies store
    ensures field.Missing? || field.NotArray? ==>
              r == Failure(InvalidArgument(ARRAY_MESSAGE)) && calls == [] && store.docs == old(store.docs)
    ensures field.Array? && field.ids == [] ==> r == Success(map[]) && calls == [] && store.docs == old(store.docs)
    ensures field.Array? && |field.ids| > MAX_REQUEST_IDS ==>
              r == Failure(InvalidArgument(LIMIT_MESSAGE)) && calls == [] && store.docs == old(store.docs)
    ensures field.Array? && 0 < |field.ids| <= MAX_REQUEST_IDS ==>
              var ids, docs := field.ids, old(store.docs);
              var misses := Misses(ids, docs, readFails, now);
              if misses == [] then
                r == Success(Response(ids, docs, readFails, now, map[])) && calls == [] && store.docs == docs
              else if apiKey == "" then
                r == Failure(FailedPrecondition("YouTube API key not configured")) && calls == [] && store.docs == docs
              else
                calls == Batches(misses)
                && r == Success(Response(ids, docs, readFails, now, FetchFold(calls, api)))
                && store.docs == StoreAfter(docs, misses, FetchFold(calls, api), now)
  {
    calls := [];
    if field.Missing? || field.NotArray? {
      return Failure(InvalidArgument(ARRAY_MESSAGE)), calls;
    }
    var ids := field.ids;
    if |ids| == 0 {
      return Success(map[]), calls;
    }
    if |ids| > MAX_REQUEST_IDS {
      return Failure(InvalidArgument(LIMIT_MESSAGE)), calls;
    }
    ghost var docs := store.docs;
    var results, needsRefresh := CheckCache(store, ids, now, readFails);
    if |needsRefresh| == 0 {
      HitViewsAnswered(ids, docs, readFails, now, map[]);
      AnsweredAll(ids, docs, readFails, now, map[]);
      return Success(results), calls;
    }
    var outcome;
    outcome, calls := FetchVideoMetadata(needsRefresh, apiKey, api);
    if outcome.Failure? {
      return Failure(outcome.error), calls;
    }
    var fetched := outcome.value;
    HitViewsAnswered(ids, docs, readFails, now, fetched);
    results := WriteBack(store, ids, docs, readFails, now, fetched, needsRefresh, results);
    AnsweredAll(ids, docs, readFails, now, fetched);
    return Success(results), calls;
  }

  /** Answering a request from the cache and from upstream both serve the record's stored
      thumbnails through `getBestThumbnailUrl`, so every served record carries the URL with
      an empty id; only a placeholder names the video. */
  lemma ServedThumbnails(ids: seq<string>, docs: map<string, CacheEntry>, readFails: set<string>, now: int,
                         fetched: map<string, ApiItem>, id: string)
    requires id in ids
    ensures IsHit(docs, readFails, now, id) || id in fetched ==>
              Response(ids, docs, readFails, now, fetched)[id].bestThumbnailUrl == Str("https://img.youtube.com/vi//hqdefault.jpg")
    ensures !IsHit(docs, readFails, now, id) && id !in fetched ==>
              Response(ids, docs, readFails, now, fetched)[id] == Placeholder(id, now)
  {
  }

  /** A document is fresh for exactly TTL_MS milliseconds: aged TTL_MS - 1 it is a hit, aged
      exactly TTL_MS it is a miss, yet the cleanup sweep (strictly older than TTL_MS) keeps it. */
  lemma TtlBoundary(docs: map<string, CacheEntry>, now: int, id: string)
    requires id in docs
    ensures now - docs[id].lastFetchedAt == TTL_MS - 1 ==> IsHit(docs, {}, now, id)
    ensures now - docs[id].lastFetchedAt == TTL_MS ==>
              !IsHit(docs, {}, now, id) && !(docs[id].lastFetchedAt < now - TTL_MS)
    ensures docs[id].lastFetchedAt < now - TTL_MS ==> forall rf :: !IsHit(docs, rf, now, id)
  {
  }

  /** One id of a request whose every miss upstream returned: after the write-back it is a
      hit, answered as the first request answered it. */
  lemma SecondAnswer(ids: seq<string>, docs: map<string, CacheEntry>, readFails: set<string>,
                     now: int, fetched: map<string, ApiItem>, id: string)
    requires forall id | id in Misses(ids, docs, readFails, now) :: id in fetched
    requires id in ids
    ensures var docs' := StoreAfter(docs, Misses(ids, docs, readFails, now), fetched, now);
            IsHit(docs', {}, now, id) && ViewOf(docs'[id]) == ResponseFor(id, docs, readFails, now, fetched)
  {
    var ms := Misses(ids, docs, readFails, now);
    StoreAfterAt(docs, ms, fetched, now, id);
  }

  /** After a request whose every miss upstream returned, repeating it at the same instant
      finds every id fresh in the cache, so it makes no upstream call and needs no API key. */
  lemma SecondRequestAllHits(ids: seq<string>, docs: map<string, CacheEntry>, readFails: set<string>,
                             now: int, fetched: map<string, ApiItem>)
    requires forall id | id in Misses(ids, docs, readFails, now) :: id in fetched
    ensures Misses(ids, StoreAfter(docs, Misses(ids, docs, readFails, now), fetched, now), {}, now) == []
  {
    forall id | id in ids
      ensures IsHit(StoreAfter(docs, Misses(ids, docs, readFails, now), fetched, now), {}, now, id)
    {
      SecondAnswer(ids, docs, readFails, now, fetched, id);
    }
  }

  /** ... and it is answered with the same response as the first time. */
  lemma SecondRequestSameResponse(ids: seq<string>, docs: map<string, CacheEntry>, readFails: set<string>,
                                  now: int, fetched: map<string, ApiItem>)
    requires forall id | id in Misses(ids, docs, readFails, now) :: id in fetched
    ensures Response(ids, StoreAfter(docs, Misses(ids, docs, readFails, now), fetched, now), {}, now, map[]) ==
            Response(ids, docs, readFails, now, fetched)
  {
    var docs' := StoreAfter(docs, Misses(ids, docs, readFails, now), fetched, now);
    var first, second := Response(ids, docs, readFails, now, fetched), Response(ids, docs', {}, now, map[]);
    forall id | id in ids ensures second[id] == first[id] {
      SecondAnswer(ids, docs, readFails, now, fetched, id);
    }
    assert second.Keys == first.Keys;
  }

  /** The collection after the refresh sweep has rewritten the selected ids upstream
      returned and deleted the others, in order. */
  function RefreshAfter(docs: map<string, CacheEntry>, selected: seq<string>, fetched: map<string, ApiItem>,
                        now: int): map<string, CacheEntry>
  {
    if selected == [] then docs else
      var d := RefreshAfter(docs, selected[..|selected| - 1], fetched, now);
      var id := selected[|selected| - 1];
      if id in fetched then d[id := Normalize(id, fetched[id], now)] else d - {id}
  }

  /** The refresh sweep rewrites each selected id upstream returned, deletes each other
      selected id (whether the video is gone or its batch failed) and keeps the rest. */
  lemma {:induction false} RefreshAfterAt(docs: map<string, CacheEntry>, selected: seq<string>,
                                          fetched: map<string, ApiItem>, now: int, k: string)
    ensures k in RefreshAfter(docs, selected, fetched, now) <==>
              (k in docs && k !in selected) || (k in selected && k in fetched)
    ensures k in selected && k in fetched ==> RefreshAfter(docs, selected, fetched, now)[k] == Normalize(k, fetched[k], now)
    ensures k !in selected && k in docs ==> RefreshAfter(docs, selected, fetched, now)[k] == docs[k]
  {
    if selected != [] {
      var init := selected[..|selected| - 1];
      assert selected == init + [selected[|selected| - 1]];
      RefreshAfterAt(docs, init, fetched, now, k);
    }
  }

  /** `refreshPopularYouTubeMetadata`: refreshes up to fifty documents fetched more than
      twenty-four days ago. `queryFails` says the query throws; the sweep swallows every
      error, a missing API key included. */
  method RefreshPopularYouTubeMetadata(store: Store, now: int, apiKey: string, api: Api, queryFails: bool)
    returns (selected: seq<string>, calls: seq<seq<string>>)
    modifies store
    ensures queryFails ==> selected == [] && calls == [] && store.docs == old(store.docs)
    ensures !queryFails ==> IsSelection(old(store.docs), selected, now - REFRESH_AGE_MS, REFRESH_LIMIT)
    ensures selected == [] || apiKey == "" ==> calls == [] && store.docs == old(store.docs)
    ensures selected != [] && apiKey != "" ==>
              calls == Batches(selected) && store.docs == RefreshAfter(old(store.docs), selected, FetchFold(calls, api), now)
  {
    selected, calls := [], [];
    if queryFails {
      return;
    }
    selected := store.QueryOlderThan(now - REFRESH_AGE_MS, REFRESH_LIMIT);
    if |selected| == 0 {
      return;
    }
    var outcome;
    outcome, calls := FetchVideoMetadata(selected, apiKey, api);
    if outcome.Failure? {
      return;
    }
    var fetched := outcome.value;
    ghost var docs := store.docs;
    var j := 0;
    while j < |selected|
      invariant 0 <= j <= |selected|
      invariant store.docs == RefreshAfter(docs, selected[..j], fetched, now)
    {
      var id := selected[j];
      assert selected[..j + 1][..j] == selected[..j];
      if id in fetched {
        var _ := store.UpdateCache(id, fetched[id], now);
      } else {
        store.Delete(id);
      }
      j := j + 1;
    }
    assert selected[..j] == selected;
  }

  /** `cleanupExpiredCache`: deletes, in one write batch, up to a hundred documents fetched
      more than TTL_MS ago. A failing query or commit deletes nothing. */
  method CleanupExpiredCache(store: Store, now: int, queryFails: bool, commitFails: bool)
    returns (selected: seq<string>)
    modifies store
    ensures queryFails ==> selected == []
    ensures !queryFails ==> IsSelection(old(store.docs), selected, now - TTL_MS, CLEANUP_LIMIT)
    ensures store.docs == if queryFails || commitFails then old(store.docs)
                          else old(store.docs) - (set id | id in selected)
  {
    selected := [];
    if queryFails {
      return;
    }
    selected := store.QueryOlderThan(now - TTL_MS, CLEANUP_LIMIT);
    if |selected| == 0 {
      return;
    }
    var batch: set<string> := {};
    for k := 0 to |selected|
      invariant batch == set id | id in selected[..k]
    {
      assert selected[..k + 1] == selected[..k] + [selected[k]];
      batch := batch + {selected[k]};
    }
    assert selected[..|selected|] == selected;
    if !commitFails {
      store.DeleteAll(batch);
    }
  }
}
