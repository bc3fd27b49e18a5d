/** How the server's answers read on the client: the two duration parsers, the two thumbnail
    choices, the placeholder thumbnail, the cache lifetime, and a served video passed through
    the callable function's wire format and `getVideosMetadata`'s decoding. */
module Agreement {
  import opened Wrappers
  import opened Text
  import opened DurationGrammar
  import opened Dynamic
  import CacheModel
  import YouTubeUtils
  import opened VideoModel
  import opened YouTubeRepository

  /** Both parsers read the same pattern; wherever the total fits in a 32-bit `Int`, the
      client's `Int` arithmetic gives the server's value. */
  lemma DurationParsersAgree(d: string)
    requires CacheModel.ParseDuration(d) <= INT_MAX
    ensures YouTubeUtils.ParseDurationIso8601(d) == CacheModel.ParseDuration(d)
  {
    match MatchDuration(d)
    case None =>
    case Some(g) =>
      var h, m, s := DecimalValue(g.hours), DecimalValue(g.minutes), DecimalValue(g.seconds);
      assert h * 3600 + m * 60 + s <= INT_MAX;
      assert YouTubeUtils.GroupValue(g.hours) == h;
      assert YouTubeUtils.GroupValue(g.minutes) == m;
      assert YouTubeUtils.GroupValue(g.seconds) == s;
  }

  /** Past that range they part: 596524 hours is 2147486400 seconds on the server, while the
      client's `hours * 3600` wraps around to a negative `Int`. */
  lemma DurationParsersDisagreeAboveIntRange()
    ensures CacheModel.ParseDuration(IsoText(Some(596524), None, None)) == 2147486400
    ensures YouTubeUtils.ParseDurationIso8601(IsoText(Some(596524), None, None)) == -2147480896
  {
    var t := IsoText(Some(596524), None, None);
    MatchIsoText(Some(596524), None, None);
    GroupDigitsValue(Some(596524));
    GroupDigitsValue(None);
    CacheModel.ParseDurationOfIsoText(Some(596524), None, None);
    assert YouTubeUtils.GroupValue(GroupDigits(Some(596524))) == 596524;
    assert YouTubeUtils.GroupValue(GroupDigits(None)) == 0;
  }

  /** The placeholder the server sends for a video it could not fetch is the client's own
      fallback thumbnail. */
  lemma PlaceholderIsClientFallback(videoId: string, now: int)
    ensures CacheModel.Placeholder(videoId, now).bestThumbnailUrl ==
            CacheModel.Str(YouTubeUtils.GetFallbackThumbnailUrl(videoId))
  {
    assert CacheModel.THUMB_PREFIX == YouTubeUtils.IMG_PREFIX;
  }

  /** The client's view of the API's thumbnails: an absent size is "". */
  function ClientThumbnails(th: CacheModel.ApiThumbnails): (t: YouTubeThumbnails)
    ensures t.maxresUrl == th.maxresUrl.GetOr("") && t.highUrl == th.highUrl.GetOr("")
    ensures t.mediumUrl == th.mediumUrl.GetOr("") && t.defaultUrl == th.defaultUrl.GetOr("")
  {
    YouTubeThumbnails(
      defaultUrl := th.defaultUrl.GetOr(""), mediumUrl := th.mediumUrl.GetOr(""),
      highUrl := th.highUrl.GetOr(""), maxresUrl := th.maxresUrl.GetOr(""))
  }

  /** A size's `.url` as the server reads it. */
  function UrlValue(url: Option<string>): (v: CacheModel.JsValue)
    ensures CacheModel.Truthy(v) <==> url.GetOr("") != ""
    ensures CacheModel.Truthy(v) ==> v == CacheModel.Str(url.GetOr(""))
  {
    if url.Some? then CacheModel.Str(url.value) else CacheModel.Undefined
  }

  /** The candidates the server finds in a nested thumbnails object, largest first. */
  lemma NestedCandidates(th: CacheModel.ApiThumbnails)
    ensures CacheModel.Candidates(CacheModel.Nested(th)) ==
            [UrlValue(th.maxresUrl), UrlValue(th.highUrl), UrlValue(th.mediumUrl), UrlValue(th.defaultUrl)]
    ensures CacheModel.Prop(CacheModel.Nested(th), "videoId") == CacheModel.Undefined
  {
    var t := CacheModel.Nested(th);
    assert CacheModel.Prop(t, "maxres") == CacheModel.Obj(CacheModel.SizeObject(th.maxresUrl));
    assert CacheModel.Prop(t, "high") == CacheModel.Obj(CacheModel.SizeObject(th.highUrl));
    assert CacheModel.Prop(t, "medium") == CacheModel.Obj(CacheModel.SizeObject(th.mediumUrl));
    assert CacheModel.Prop(t, "default") == CacheModel.Obj(CacheModel.SizeObject(th.defaultUrl));
  }

  /** Over the API's nested thumbnails both sides prefer the same size; when no size has a
      URL the server builds one with an empty video id where the client has "". */
  lemma BestThumbnailAgrees(th: CacheModel.ApiThumbnails)
    ensures ClientThumbnails(th).BestUrl() != "" ==>
              CacheModel.GetBestThumbnailUrl(CacheModel.Nested(th)) == CacheModel.Str(ClientThumbnails(th).BestUrl())
    ensures ClientThumbnails(th).BestUrl() == "" ==>
              CacheModel.GetBestThumbnailUrl(CacheModel.Nested(th)) == CacheModel.Str("https://img.youtube.com/vi//hqdefault.jpg")
  {
    NestedCandidates(th);
    assert CacheModel.FallbackUrl(CacheModel.Nested(th)) == "https://img.youtube.com/vi//hqdefault.jpg";
  }

  /** The client's cache lifetime (`FirebaseSchema.YOUTUBE_CACHE_TTL_MS`): 29 days in milliseconds. */
  const CLIENT_CACHE_TTL_MS: int := 29 * 24 * 60 * 60 * 1000

  /** Both sides count a cached video stale after the same 29 days. */
  lemma CacheLifetimesAgree()
    ensures CLIENT_CACHE_TTL_MS == CacheModel.TTL_MS == 2_505_600_000
  {
  }

  /** A JSON integer as the client's JSON reader types it: `Int` when it fits, else `Long`. */
  function WireNumber(n: int): (v: KValue)
    ensures INT_MIN <= n <= INT_MAX ==> v == KInt(n)
    ensures !(INT_MIN <= n <= INT_MAX) ==> v == KLong(n)
  {
    if INT_MIN <= n <= INT_MAX then KInt(n) else KLong(n)
  }

  /** What the client reads for a count: the number, or nothing when it is undefined. */
  function CountOf(c: Option<CacheModel.JsCount>): Option<int> {
    if c.Some? && c.value.Count? then Some(c.value.n) else None
  }

  /** A count the callable's encoder accepts: undefined, or a finite number. JSON has no NaN,
      and the encoder throws on a number that is not finite. */
  predicate CountEncodable(c: Option<CacheModel.JsCount>) {
    c.None? || c.value.Count?
  }

  /** A served video the encoder accepts: neither count is NaN. */
  predicate Encodable(v: CacheModel.VideoView) {
    CountEncodable(v.viewCount) && CountEncodable(v.likeCount)
  }

  /** A count property: left out when undefined. */
  function WireCount(key: string, c: Option<int>): seq<(string, KValue)> {
    if c.None? then [] else [(key, WireNumber(c.value))]
  }

  /** The properties a served video always has, keys in the order written. */
  function FixedFields(v: CacheModel.VideoView): seq<(string, KValue)> {
    [("title", KString(v.title)), ("channelTitle", KString(v.channelTitle)),
     ("publishedAt", WireNumber(v.publishedAt)), ("durationSeconds", WireNumber(v.durationSeconds)),
     ("bestThumbnailUrl", if v.bestThumbnailUrl.Str? then KString(v.bestThumbnailUrl.s) else KNull)]
  }

  /** The properties of a served video as they reach the client, when it can be encoded. */
  function WireView(v: CacheModel.VideoView): seq<(string, KValue)> {
    FixedFields(v) + WireCount("viewCount", CountOf(v.viewCount)) + WireCount("likeCount", CountOf(v.likeCount))
  }

  /** A served video through the callable's encoder: its properties, or a failure when a
      count is NaN. */
  function EncodeView(v: CacheModel.VideoView): Option<seq<(string, KValue)>> {
    if Encodable(v) then Some(WireView(v)) else None
  }

  /** The whole response through the encoder, properties in the order written: the call
      fails when any video cannot be encoded. */
  function EncodeResponse(resp: seq<(string, CacheModel.VideoView)>): CallOutcome {
    if forall i | 0 <= i < |resp| :: Encodable(resp[i].1) then
      CallReturned(KMap(seq(|resp|, i requires 0 <= i < |resp| => (resp[i].0, KMap(WireView(resp[i].1))))))
    else CallThrew
  }

  lemma FixedFieldsKeys(v: CacheModel.VideoView)
    ensures forall e | e in FixedFields(v) :: e.0 != "viewCount" && e.0 != "likeCount"
  {
    var f := FixedFields(v);
    forall e | e in f ensures e.0 != "viewCount" && e.0 != "likeCount" {
      var i :| 0 <= i < 5 && f[i] == e;
      assert |e.0| != 9 by {
        assert i == 0 || i == 1 || i == 2 || i == 3 || i == 4;
      }
    }
  }

  lemma WireCountKeys(key: string, c: Option<int>)
    ensures forall e | e in WireCount(key, c) :: e.0 == key
  {
  }

  lemma LookupFixed(v: CacheModel.VideoView, i: nat)
    requires i < 5
    ensures Lookup(WireView(v), WireView(v)[i].0) == Some(WireView(v)[i].1)
  {
    var w := WireView(v);
    assert forall j | 0 <= j < i :: w[j].0 != w[i].0;
    LookupDistinct(w, i);
  }

  lemma LookupCount(key: string, c: Option<int>, before: seq<(string, KValue)>, after: seq<(string, KValue)>)
    requires forall e | e in before + after :: e.0 != key
    ensures Lookup(before + WireCount(key, c) + after, key) == if c.None? then None else Some(WireNumber(c.value))
  {
    var w := before + WireCount(key, c) + after;
    if c.Some? {
      assert w[|before|].0 == key;
      assert forall j | 0 <= j < |before| :: w[j] == before[j];
      LookupDistinct(w, |before|);
    } else {
      assert w == before + after;
      forall j | 0 <= j < |w| ensures w[j].0 != key {
        assert w[j] in before + after;
      }
    }
  }

  /** The fixed properties are found under their own keys. */
  lemma FixedLookups(v: CacheModel.VideoView)
    ensures Lookup(WireView(v), "title") == Some(KString(v.title))
    ensures Lookup(WireView(v), "channelTitle") == Some(KString(v.channelTitle))
    ensures Lookup(WireView(v), "publishedAt") == Some(WireNumber(v.publishedAt))
    ensures Lookup(WireView(v), "durationSeconds") == Some(WireNumber(v.durationSeconds))
    ensures v.bestThumbnailUrl.Str? ==> Lookup(WireView(v), "bestThumbnailUrl") == Some(KString(v.bestThumbnailUrl.s))
  {
    var w := WireView(v);
    assert w[..5] == FixedFields(v);
    LookupFixed(v, 0);
    LookupFixed(v, 1);
    LookupFixed(v, 2);
    LookupFixed(v, 3);
    LookupFixed(v, 4);
  }

  /** The counts are found when present. */
  lemma CountLookups(v: CacheModel.VideoView)
    ensures NumberToLong(Lookup(WireView(v), "viewCount")) == CountOf(v.viewCount)
    ensures NumberToLong(Lookup(WireView(v), "likeCount")) == CountOf(v.likeCount)
  {
    var fixed := FixedFields(v);
    var vc, lc := WireCount("viewCount", CountOf(v.viewCount)), WireCount("likeCount", CountOf(v.likeCount));
    FixedFieldsKeys(v);
    WireCountKeys("viewCount", CountOf(v.viewCount));
    WireCountKeys("likeCount", CountOf(v.likeCount));
    assert "viewCount"[0] != "likeCount"[0];
    LookupCount("viewCount", CountOf(v.viewCount), fixed, lc);
    assert WireView(v) == (fixed + vc) + lc + [];
    LookupCount("likeCount", CountOf(v.likeCount), fixed + vc, []);
  }

  /** A served video read back by the client. A NaN count makes the encoder fail. Otherwise
      title, channel and thumbnail arrive as sent (the thumbnail being the server's choice),
      the duration as a wrapped `Int`, the counts as numbers or nothing, and `publishedAt`
      only when it is too large for an `Int` (a smaller value comes as an `Int`, which the
      `Long` cast refuses, so it reads as 0). */
  lemma ServedVideoDecodes(videoId: string, v: CacheModel.VideoView)
    requires v.bestThumbnailUrl.Str?
    requires LONG_MIN <= v.publishedAt <= LONG_MAX
    ensures EncodeView(v).None? <==> v.viewCount == Some(CacheModel.NaN) || v.likeCount == Some(CacheModel.NaN)
    ensures EncodeView(v).Some? ==>
      var d := DecodeVideo(videoId, EncodeView(v).value);
      && d.videoId == videoId && d.title == v.title && d.channelTitle == v.channelTitle
      && d.thumbnailUrl == v.bestThumbnailUrl.s
      && d.durationSeconds == Wrap32(v.durationSeconds)
      && d.publishedAt == (if INT_MIN <= v.publishedAt <= INT_MAX then 0 else v.publishedAt)
      && d.viewCount == (if v.viewCount.Some? then Some(v.viewCount.value.n) else None)
      && d.likeCount == (if v.likeCount.Some? then Some(v.likeCount.value.n) else None)
  {
    if Encodable(v) {
      var w := WireView(v);
      assert EncodeView(v) == Some(w);
      assert CountOf(v.viewCount) == (if v.viewCount.Some? then Some(v.viewCount.value.n) else None);
      assert CountOf(v.likeCount) == (if v.likeCount.Some? then Some(v.likeCount.value.n) else None);
      DecodeWire(videoId, v);
    }
  }

  /** The client's decoding of the properties a served video is written as. */
  lemma DecodeWire(videoId: string, v: CacheModel.VideoView)
    requires v.bestThumbnailUrl.Str?
    requires LONG_MIN <= v.publishedAt <= LONG_MAX
    ensures var d := DecodeVideo(videoId, WireView(v));
      && d.videoId == videoId && d.title == v.title && d.channelTitle == v.channelTitle
      && d.thumbnailUrl == v.bestThumbnailUrl.s
      && d.durationSeconds == Wrap32(v.durationSeconds)
      && d.publishedAt == (if INT_MIN <= v.publishedAt <= INT_MAX then 0 else v.publishedAt)
      && d.viewCount == CountOf(v.viewCount) && d.likeCount == CountOf(v.likeCount)
  {
    FixedLookups(v);
    CountLookups(v);
  }

  /** A response holding a video with a NaN count reaches the client as a failed call, which
      `getVideosMetadata` turns into an empty map: no video of the response is shown. */
  lemma UnencodableResponseShowsNothing(ids: seq<string>, resp: seq<(string, CacheModel.VideoView)>, i: nat)
    requires i < |resp| && !Encodable(resp[i].1)
    ensures GetVideosMetadata(ids, (_: seq<string>) => EncodeResponse(resp)) == map[]
  {
    assert EncodeResponse(resp) == CallThrew;
  }

  /** When every video can be encoded, the client finds each one under its id, decoded from
      the properties the server wrote. */
  lemma EncodedResponseDecodes(ids: seq<string>, resp: seq<(string, CacheModel.VideoView)>, i: nat)
    requires ids != [] && i < |resp|
    requires forall j, k | 0 <= j < k < |resp| :: resp[j].0 != resp[k].0
    requires forall j | 0 <= j < |resp| :: Encodable(resp[j].1)
    ensures var got := GetVideosMetadata(ids, (_: seq<string>) => EncodeResponse(resp));
            resp[i].0 in got && got[resp[i].0] == DecodeVideo(resp[i].0, WireView(resp[i].1))
  {
    var callable := (_: seq<string>) => EncodeResponse(resp);
    var entries := seq(|resp|, j requires 0 <= j < |resp| => (resp[j].0, KMap(WireView(resp[j].1))));
    assert callable(ids) == CallReturned(KMap(entries));
    assert AllMaps(entries) by {
      forall e | e in entries ensures e.1.KMap? {
        var j :| 0 <= j < |entries| && entries[j] == e;
      }
    }
    assert entries[i].0 == resp[i].0;
    assert resp[i].0 in Keys(entries);
    LookupDistinct(entries, i);
  }

  /** Every video the server serves from its cache therefore shows on the client with the
      empty-id thumbnail URL, unless a NaN count among its stats makes the call fail. */
  lemma CachedVideoThumbnailOnClient(videoId: string, e: CacheModel.CacheEntry)
    requires LONG_MIN <= e.publishedAt <= LONG_MAX
    ensures var v := CacheModel.ViewOf(e);
            EncodeView(v).None? <==> e.stats.Some? && (e.stats.value.viewCount.NaN? || e.stats.value.likeCount.NaN?)
    ensures var v := CacheModel.ViewOf(e);
            EncodeView(v).Some? ==> DecodeVideo(videoId, EncodeView(v).value).thumbnailUrl == "https://img.youtube.com/vi//hqdefault.jpg"
  {
    ServedVideoDecodes(videoId, CacheModel.ViewOf(e));
  }
}
