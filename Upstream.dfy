/** `fetchVideoMetadataFromYouTube`: the requested ids are sent to the YouTube Data API in
    consecutive batches of at most fifty; a batch whose call throws contributes nothing and
    the later batches still run. The API itself is a parameter: `Api` maps a batch of ids to
    the items of the response, or to None when the call throws. */
module Upstream {
  import opened Wrappers
  import opened Lists
  import opened CacheModel

  type Api = seq<string> -> Option<seq<ApiItem>>

  /** The errors the service raises to its callers. */
  datatype HttpsError = InvalidArgument(message: string) | FailedPrecondition(message: string)

  function Min(a: int, b: int): int { if a < b then a else b }

  /** The batches the loop sends from index `i` on: the slices `[i, i+50)`, `[i+50, i+100)`, ... */
  function BatchesFrom(ids: seq<string>, i: nat): seq<seq<string>>
    decreases |ids| - i
  {
    if i >= |ids| then [] else [ids[i..Min(i + MAX_BATCH_SIZE, |ids|)]] + BatchesFrom(ids, i + MAX_BATCH_SIZE)
  }

  function Batches(ids: seq<string>): seq<seq<string>> { BatchesFrom(ids, 0) }

  /** Batch `k` from index `i` is the slice of at most fifty ids starting `50 k` further on. */
  lemma {:induction false} BatchesFromAt(ids: seq<string>, i: nat, k: nat)
    requires k < |BatchesFrom(ids, i)|
    ensures i + MAX_BATCH_SIZE * k < |ids|
    ensures BatchesFrom(ids, i)[k] == ids[i + MAX_BATCH_SIZE * k..Min(i + MAX_BATCH_SIZE * k + MAX_BATCH_SIZE, |ids|)]
    decreases k
  {
    if k > 0 {
      BatchesFromAt(ids, i + MAX_BATCH_SIZE, k - 1);
    }
  }

  /** There are `ceil((|ids| - i) / 50)` batches from index `i`. */
  lemma {:induction false} BatchesFromCount(ids: seq<string>, i: nat)
    ensures |BatchesFrom(ids, i)| == if i >= |ids| then 0 else (|ids| - i + MAX_BATCH_SIZE - 1) / MAX_BATCH_SIZE
    decreases |ids| - i
  {
    if i < |ids| {
      BatchesFromCount(ids, i + MAX_BATCH_SIZE);
    }
  }

  lemma {:induction false} BatchesFromFlatten(ids: seq<string>, i: nat)
    requires i <= |ids|
    ensures Flatten(BatchesFrom(ids, i)) == ids[i..]
    decreases |ids| - i
  {
    if i < |ids| {
      var j := Min(i + MAX_BATCH_SIZE, |ids|);
      BatchesFromFlatten(ids, j);
      if j < |ids| {
        assert BatchesFrom(ids, i)[1..] == BatchesFrom(ids, j);
      }
      assert ids[i..] == ids[i..j] + ids[j..];
    }
  }

  /** The batches are ceil(n / 50) non-empty slices of at most fifty consecutive ids whose
      concatenation is the whole request. */
  lemma BatchesShape(ids: seq<string>)
    ensures |Batches(ids)| == (|ids| + MAX_BATCH_SIZE - 1) / MAX_BATCH_SIZE
    ensures forall k | 0 <= k < |Batches(ids)| :: 1 <= |Batches(ids)[k]| <= MAX_BATCH_SIZE
    ensures Flatten(Batches(ids)) == ids
  {
    BatchesFromCount(ids, 0);
    BatchesFromFlatten(ids, 0);
    forall k | 0 <= k < |Batches(ids)| ensures 1 <= |Batches(ids)[k]| <= MAX_BATCH_SIZE {
      BatchesFromAt(ids, 0, k);
    }
  }

  /** The results map after adding `items` in order: an item with a non-empty id is stored
      under it, a later item replacing an earlier one with the same id. */
  function AddItems(m: map<string, ApiItem>, items: seq<ApiItem>): map<string, ApiItem> {
    if items == [] then m else
      var m' := AddItems(m, items[..|items| - 1]);
      var it := items[|items| - 1];
      if Present(it.id) then m'[it.id.value := it] else m'
  }

  /** The results map after the calls for `bs`, in order. */
  function FetchFold(bs: seq<seq<string>>, api: Api): map<string, ApiItem> {
    if bs == [] then map[] else
      var m := FetchFold(bs[..|bs| - 1], api);
      match api(bs[|bs| - 1])
      case None => m
      case Some(items) => AddItems(m, items)
  }

  /** The items of the successful calls, in order. */
  function Returned(bs: seq<seq<string>>, api: Api): seq<ApiItem> {
    if bs == [] then [] else
      Returned(bs[..|bs| - 1], api) + api(bs[|bs| - 1]).GetOr([])
  }

  /** Some item of `items` has the non-empty id `k`. */
  predicate Carries(items: seq<ApiItem>, k: string) {
    k != "" && exists j :: 0 <= j < |items| && items[j].id == Some(k)
  }

  lemma CarriesAppend(a: seq<ApiItem>, b: seq<ApiItem>, k: string)
    ensures Carries(a + b, k) <==> Carries(a, k) || Carries(b, k)
  {
    if Carries(a + b, k) {
      var j :| 0 <= j < |a + b| && (a + b)[j].id == Some(k);
      if j >= |a| { assert b[j - |a|].id == Some(k); }
    }
    if Carries(a, k) {
      var j :| 0 <= j < |a| && a[j].id == Some(k);
      assert (a + b)[j].id == Some(k);
    }
    if Carries(b, k) {
      var j :| 0 <= j < |b| && b[j].id == Some(k);
      assert (a + b)[|a| + j].id == Some(k);
    }
  }

  lemma {:induction false} AddItemsKeys(m: map<string, ApiItem>, items: seq<ApiItem>)
    ensures forall k :: k in AddItems(m, items) <==> k in m || Carries(items, k)
    ensures forall k | k in AddItems(m, items) && !Carries(items, k) :: AddItems(m, items)[k] == m[k]
    ensures forall k | Carries(items, k) :: AddItems(m, items)[k].id == Some(k) && AddItems(m, items)[k] in items
  {
    if items != [] {
      var init := items[..|items| - 1];
      var last := items[|items| - 1];
      AddItemsKeys(m, init);
      assert items == init + [last];
      forall k ensures Carries(items, k) <==> Carries(init, k) || Carries([last], k) {
        CarriesAppend(init, [last], k);
      }
    }
  }

  /** The results hold exactly the items with a non-empty id that the successful calls
      returned, each under its own id. */
  lemma {:induction false} FetchFoldKeys(bs: seq<seq<string>>, api: Api)
    ensures forall k :: k in FetchFold(bs, api) <==> Carries(Returned(bs, api), k)
    ensures forall k | k in FetchFold(bs, api) :: FetchFold(bs, api)[k].id == Some(k) && FetchFold(bs, api)[k] in Returned(bs, api)
  {
    if bs != [] {
      var init := bs[..|bs| - 1];
      var prev := Returned(init, api);
      FetchFoldKeys(init, api);
      var items := api(bs[|bs| - 1]).GetOr([]);
      AddItemsKeys(FetchFold(init, api), items);
      forall k ensures Carries(prev + items, k) <==> Carries(prev, k) || Carries(items, k) {
        CarriesAppend(prev, items, k);
      }
    }
  }

  /** Without an API key the fetch fails before any call; otherwise it calls the API once
      per batch, in order, and returns the folded results. `calls` records the batches sent. */
  method FetchVideoMetadata(ids: seq<string>, apiKey: string, api: Api)
    returns (r: Result<map<string, ApiItem>, HttpsError>, calls: seq<seq<string>>)
    ensures apiKey == "" ==> r == Failure(FailedPrecondition("YouTube API key not configured")) && calls == []
    ensures apiKey != "" ==> calls == Batches(ids) && r == Success(FetchFold(calls, api))
  {
    if apiKey == "" {
      return Failure(FailedPrecondition("YouTube API key not configured")), [];
    }
    var results: map<string, ApiItem> := map[];
    calls := [];
    var i: nat := 0;
    while i < |ids|
      invariant calls + BatchesFrom(ids, i) == Batches(ids)
      invariant results == FetchFold(calls, api)
      decreases |ids| - i
    {
      var batch := ids[i..Min(i + MAX_BATCH_SIZE, |ids|)];
      assert BatchesFrom(ids, i) == [batch] + BatchesFrom(ids, i + MAX_BATCH_SIZE);
      var response := api(batch);
      if response.Some? {
        var items := response.value;
        var j := 0;
        ghost var before := results;
        while j < |items|
          invariant 0 <= j <= |items|
          invariant results == AddItems(before, items[..j])
        {
          if Present(items[j].id) {
            results := results[items[j].id.value := items[j]];
          }
          assert items[..j + 1][..j] == items[..j];
          j := j + 1;
        }
        assert items[..j] == items;
      }
      assert (calls + [batch])[..|calls|] == calls;
      calls := calls + [batch];
      i := i + MAX_BATCH_SIZE;
    }
    return Success(results), calls;
  }
}
