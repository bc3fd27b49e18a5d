/** The values the metadata cache service works with: the YouTube Data API's video items,
    the cached record (`YouTubeVideoCache`), the view returned to the client, and the pure
    helpers `parseDuration` and `getBestThumbnailUrl` together with the normalisation that
    `updateCache` applies before it writes. */
module CacheModel {
  import opened Wrappers
  import opened Text
  import opened DurationGrammar

  /** Twenty-nine days, in milliseconds. */
  const TTL_MS: int := 29 * 24 * 60 * 60 * 1000
  /** The refresh sweep's age threshold: twenty-four days, in milliseconds. */
  const REFRESH_AGE_MS: int := 24 * 24 * 60 * 60 * 1000
  /** The largest number of ids one upstream call may carry. */
  const MAX_BATCH_SIZE: nat := 50
  /** The largest number of ids one request may carry. */
  const MAX_REQUEST_IDS: nat := 100
  const REFRESH_LIMIT: nat := 50
  const CLEANUP_LIMIT: nat := 100

  /** `parseDuration`: the hours, minutes and seconds of the first `PT[nH][nM][nS]` match,
      as seconds; an absent group counts 0 and text without "PT" gives 0. */
  function ParseDuration(d: string): (n: nat)
    ensures !Contains(d, "PT") ==> n == 0
  {
    match MatchDuration(d)
    case None => 0
    case Some(g) => DecimalValue(g.hours) * 3600 + DecimalValue(g.minutes) * 60 + DecimalValue(g.seconds)
  }

  /** Reading a rendered duration gives back its value. */
  lemma ParseDurationOfIsoText(h: Option<nat>, m: Option<nat>, s: Option<nat>)
    ensures ParseDuration(IsoText(h, m, s)) == h.GetOr(0) * 3600 + m.GetOr(0) * 60 + s.GetOr(0)
  {
    MatchIsoText(h, m, s);
    GroupDigitsValue(h);
    GroupDigitsValue(m);
    GroupDigitsValue(s);
  }

  lemma ParseDurationMinutesSeconds()
    ensures ParseDuration("PT3M12S") == 192
  {
    assert NatToDecimal(12) == "12" by { assert NatToDecimal(12) == NatToDecimal(1) + [DigitChar(2)]; }
    assert IsoText(None, Some(3), Some(12)) == "PT3M12S";
    ParseDurationOfIsoText(None, Some(3), Some(12));
  }

  lemma ParseDurationZero()
    ensures ParseDuration("PT0S") == 0
  {
    assert IsoText(None, None, Some(0)) == "PT0S";
    ParseDurationOfIsoText(None, None, Some(0));
  }

  lemma ParseDurationAllGroups()
    ensures ParseDuration("PT1H2M3S") == 3723
  {
    assert IsoText(Some(1), Some(2), Some(3)) == "PT1H2M3S";
    ParseDurationOfIsoText(Some(1), Some(2), Some(3));
  }

  /** The few shapes of JavaScript value that `getBestThumbnailUrl` can be handed. */
  datatype JsValue = Undefined | Str(s: string) | Obj(fields: map<string, JsValue>)

  /** Optional-chaining property access `v?.key`. */
  function Prop(v: JsValue, key: string): JsValue {
    if v.Obj? && key in v.fields then v.fields[key] else Undefined
  }

  predicate Truthy(v: JsValue) {
    match v
    case Undefined => false
    case Str(s) => s != ""
    case Obj(_) => true
  }

  /** JavaScript's `a || b`. */
  function OrElse(a: JsValue, b: JsValue): JsValue {
    if Truthy(a) then a else b
  }

  /** How a value reads when spliced into a template literal. */
  function TemplateText(v: JsValue): string {
    match v
    case Undefined => "undefined"
    case Str(s) => s
    case Obj(_) => "[object Object]"
  }

  const THUMB_PREFIX: string := "https://img.youtube.com/vi/"
  const HQ_SUFFIX: string := "/hqdefault.jpg"

  /** The `.url` of the four sizes, in the order they are preferred. */
  function Candidates(t: JsValue): (c: seq<JsValue>)
    ensures |c| == 4
  {
    [Prop(Prop(t, "maxres"), "url"), Prop(Prop(t, "high"), "url"),
     Prop(Prop(t, "medium"), "url"), Prop(Prop(t, "default"), "url")]
  }

  /** The URL built when no size has a URL: the object's own `videoId`, or nothing. */
  function FallbackUrl(t: JsValue): string {
    THUMB_PREFIX + TemplateText(OrElse(Prop(t, "videoId"), Str(""))) + HQ_SUFFIX
  }

  /** `getBestThumbnailUrl`: the first truthy candidate URL, else the fallback URL. */
  function GetBestThumbnailUrl(t: JsValue): (r: JsValue)
    ensures Truthy(r)
    ensures var c := Candidates(t);
            && (Truthy(c[0]) ==> r == c[0])
            && (!Truthy(c[0]) && Truthy(c[1]) ==> r == c[1])
            && (!Truthy(c[0]) && !Truthy(c[1]) && Truthy(c[2]) ==> r == c[2])
            && (!Truthy(c[0]) && !Truthy(c[1]) && !Truthy(c[2]) && Truthy(c[3]) ==> r == c[3])
            && (!Truthy(c[0]) && !Truthy(c[1]) && !Truthy(c[2]) && !Truthy(c[3]) ==> r == Str(FallbackUrl(t)))
  {
    OrElse(Prop(Prop(t, "maxres"), "url"),
      OrElse(Prop(Prop(t, "high"), "url"),
        OrElse(Prop(Prop(t, "medium"), "url"),
          OrElse(Prop(Prop(t, "default"), "url"), Str(FallbackUrl(t))))))
  }

  /** The thumbnail URLs as the cache stores them. */
  datatype Thumbnails = Thumbnails(defaultUrl: string, mediumUrl: string, highUrl: string, maxresUrl: string)

  /** The stored thumbnails object as a JavaScript value, as the service reads it back. */
  function Flat(th: Thumbnails): JsValue {
    Obj(map["defaultUrl" := Str(th.defaultUrl), "mediumUrl" := Str(th.mediumUrl),
            "highUrl" := Str(th.highUrl), "maxresUrl" := Str(th.maxresUrl)])
  }

  /** Handed the stored (flattened) thumbnails, `getBestThumbnailUrl` finds none of the
      nested sizes and no `videoId`, so it always builds the URL with an empty id. */
  lemma FlatThumbnailsGiveEmptyIdUrl(th: Thumbnails)
    ensures GetBestThumbnailUrl(Flat(th)) == Str("https://img.youtube.com/vi//hqdefault.jpg")
  {
    var t := Flat(th);
    assert forall i | 0 <= i < 4 :: Candidates(t)[i] == Undefined;
    assert Prop(t, "videoId") == Undefined;
  }

  /** The `.url` of each size in a YouTube Data API `snippet.thumbnails` object (None when
      the size or its url is absent). */
  datatype ApiThumbnails = ApiThumbnails(defaultUrl: Option<string>, mediumUrl: Option<string>,
                                         highUrl: Option<string>, maxresUrl: Option<string>)

  function SizeObject(url: Option<string>): map<string, JsValue> {
    match url
    case None => map[]
    case Some(u) => map["url" := Str(u)]
  }

  /** The API's nested thumbnails object as a JavaScript value. */
  function Nested(th: ApiThumbnails): JsValue {
    Obj(map["default" := Obj(SizeObject(th.defaultUrl)), "medium" := Obj(SizeObject(th.mediumUrl)),
            "high" := Obj(SizeObject(th.highUrl)), "maxres" := Obj(SizeObject(th.maxresUrl))])
  }

  datatype Snippet = Snippet(title: Option<string>, channelTitle: Option<string>,
                             publishedAt: Option<int>, thumbnails: ApiThumbnails)
  datatype ContentDetails = ContentDetails(duration: Option<string>)
  datatype Statistics = Statistics(viewCount: Option<string>, likeCount: Option<string>)

  /** One video item of a YouTube Data API `videos.list` response. `publishedAt` is the
      instant the published date denotes, in milliseconds, and None when the date is absent
      or the empty string (the only falsy date texts). */
  datatype ApiItem = ApiItem(id: Option<string>, snippet: Option<Snippet>,
                             contentDetails: Option<ContentDetails>, statistics: Option<Statistics>)

  const NO_THUMBNAILS := ApiThumbnails(None, None, None, None)
  const EMPTY_SNIPPET := Snippet(None, None, None, NO_THUMBNAILS)

  /** JavaScript's `s || d` on an optional string. */
  function Or(s: Option<string>, d: string): (r: string)
    ensures d != "" ==> r != ""
    ensures s.Some? && s.value != "" ==> r == s.value
    ensures !(s.Some? && s.value != "") ==> r == d
  {
    if s.Some? && s.value != "" then s.value else d
  }

  predicate Present(s: Option<string>) { s.Some? && s.value != "" }

  /** A number `parseInt` produces from a count string. */
  datatype JsCount = Count(n: nat) | NaN

  /** `parseInt` of a count: the value of the leading decimal digits, NaN when there are none. */
  function ParseCount(s: string): (r: JsCount)
    ensures AllDigits(s) && s != "" ==> r == Count(DecimalValue(s))
  {
    var n := DigitRun(s, 0);
    assert AllDigits(s) ==> n == |s| && s[..n] == s;
    if n == 0 then NaN else Count(DecimalValue(s[..n]))
  }

  datatype Stats = Stats(viewCount: JsCount, likeCount: JsCount)

  /** The cached record of one video (`YouTubeVideoCache`); instants are milliseconds. */
  datatype CacheEntry = CacheEntry(
    videoId: string, title: string, channelTitle: string, publishedAt: int,
    durationIso: string, durationSeconds: nat, thumbnails: Thumbnails,
    lastFetchedAt: int, stats: Option<Stats>, statsFetchedAt: Option<int>)

  /** What every record `updateCache` writes satisfies. */
  predicate WellFormed(e: CacheEntry) {
    && e.title != "" && e.durationIso != ""
    && e.durationSeconds == ParseDuration(e.durationIso)
    && (e.stats.Some? <==> e.statsFetchedAt.Some?)
    && (e.statsFetchedAt.Some? ==> e.statsFetchedAt.value == e.lastFetchedAt)
  }

  /** The record `updateCache` builds for `videoId` from an API item at instant `now`. */
  function Normalize(videoId: string, item: ApiItem, now: int): (e: CacheEntry)
    ensures WellFormed(e)
    ensures e.videoId == videoId && e.lastFetchedAt == now
    ensures e.stats.Some? <==> item.statistics.Some? &&
                                (Present(item.statistics.value.viewCount) || Present(item.statistics.value.likeCount))
    ensures var sn := item.snippet.GetOr(EMPTY_SNIPPET);
            && e.title == Or(sn.title, "Untitled Video")
            && e.channelTitle == Or(sn.channelTitle, "")
            && e.publishedAt == sn.publishedAt.GetOr(now)
            && e.thumbnails == Thumbnails(Or(sn.thumbnails.defaultUrl, ""), Or(sn.thumbnails.mediumUrl, ""),
                                          Or(sn.thumbnails.highUrl, ""), Or(sn.thumbnails.maxresUrl, ""))
    ensures e.durationIso == Or(item.contentDetails.GetOr(ContentDetails(None)).duration, "PT0S")
    ensures e.stats.Some? ==> var st := item.statistics.value;
              e.stats.value == Stats(ParseCount(Or(st.viewCount, "0")), ParseCount(Or(st.likeCount, "0")))
  {
    var sn := item.snippet.GetOr(EMPTY_SNIPPET);
    var cd := item.contentDetails.GetOr(ContentDetails(None));
    var st := item.statistics.GetOr(Statistics(None, None));
    var iso := Or(cd.duration, "PT0S");
    var hasStats := Present(st.viewCount) || Present(st.likeCount);
    CacheEntry(
      videoId, Or(sn.title, "Untitled Video"), Or(sn.channelTitle, ""),
      sn.publishedAt.GetOr(now),
      iso, ParseDuration(iso),
      Thumbnails(Or(sn.thumbnails.defaultUrl, ""), Or(sn.thumbnails.mediumUrl, ""),
                 Or(sn.thumbnails.highUrl, ""), Or(sn.thumbnails.maxresUrl, "")),
      now,
      if hasStats then Some(Stats(ParseCount(Or(st.viewCount, "0")), ParseCount(Or(st.likeCount, "0")))) else None,
      if hasStats then Some(now) else None)
  }

  /** An item with nothing in it is cached with every default. */
  lemma NormalizeDefaults(videoId: string, now: int)
    ensures Normalize(videoId, ApiItem(Some(videoId), None, None, None), now) ==
            CacheEntry(videoId, "Untitled Video", "", now, "PT0S", 0, Thumbnails("", "", "", ""), now, None, None)
  {
    ParseDurationZero();
  }

  /** A snippet without a title is cached as "Untitled Video", and a date denoting the epoch
      itself is kept: the fallback to the current instant applies only to an absent date. */
  lemma NormalizeSnippetFallbacks(videoId: string, sn: Snippet, now: int)
    requires sn.title.None? || sn.title == Some("")
    ensures Normalize(videoId, ApiItem(Some(videoId), Some(sn), None, None), now).title == "Untitled Video"
    ensures sn.publishedAt == Some(0) ==> Normalize(videoId, ApiItem(Some(videoId), Some(sn), None, None), now).publishedAt == 0
    ensures sn.publishedAt.None? ==> Normalize(videoId, ApiItem(Some(videoId), Some(sn), None, None), now).publishedAt == now
  {
  }

  /** The write replaces the whole record: stats an earlier record had are gone when the new
      item carries none. */
  lemma OverwriteDropsStats(docs: map<string, CacheEntry>, videoId: string, item: ApiItem, now: int)
    requires videoId in docs && docs[videoId].stats.Some?
    requires item.statistics.None? || item.statistics == Some(Statistics(None, Some("")))
    ensures docs[videoId := Normalize(videoId, item, now)][videoId].stats.None?
  {
  }

  /** One video as the service returns it to the client; `viewCount`/`likeCount` are None
      where the response leaves them undefined. */
  datatype VideoView = VideoView(
    title: string, channelTitle: string, publishedAt: int, durationSeconds: nat,
    bestThumbnailUrl: JsValue, viewCount: Option<JsCount>, likeCount: Option<JsCount>)

  /** The view of a cached record, as both the hit path and the write path build it. */
  function ViewOf(e: CacheEntry): (v: VideoView)
    ensures v.bestThumbnailUrl == Str("https://img.youtube.com/vi//hqdefault.jpg")
    ensures v.viewCount.Some? <==> e.stats.Some?
    ensures v.likeCount.Some? <==> e.stats.Some?
    ensures e.stats.Some? ==>
              v.viewCount == Some(e.stats.value.viewCount) && v.likeCount == Some(e.stats.value.likeCount)
    ensures (v.title, v.channelTitle, v.publishedAt, v.durationSeconds) ==
            (e.title, e.channelTitle, e.publishedAt, e.durationSeconds)
  {
    FlatThumbnailsGiveEmptyIdUrl(e.thumbnails);
    VideoView(e.title, e.channelTitle, e.publishedAt, e.durationSeconds,
              GetBestThumbnailUrl(Flat(e.thumbnails)),
              if e.stats.Some? then Some(e.stats.value.viewCount) else None,
              if e.stats.Some? then Some(e.stats.value.likeCount) else None)
  }

  /** The URL of a video's high-quality default thumbnail. */
  function HqDefaultUrl(videoId: string): string {
    THUMB_PREFIX + videoId + HQ_SUFFIX
  }

  /** The minimal view returned for a video upstream did not return. */
  function Placeholder(videoId: string, now: int): (v: VideoView)
    ensures v.bestThumbnailUrl == Str(HqDefaultUrl(videoId)) && v.title == "Video" && v.channelTitle == ""
    ensures v.viewCount.None? && v.likeCount.None? && v.durationSeconds == 0 && v.publishedAt == now
  {
    VideoView("Video", "", now, 0, Str(HqDefaultUrl(videoId)), None, None)
  }
}
