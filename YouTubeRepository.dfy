/** The client's side of the metadata call (`YouTubeRepository`): it sends the ids to the
    callable function and decodes the map it answers with into `YouTubeVideo` records. */
module YouTubeRepository {
  import opened Wrappers
  import opened Text
  import opened Dynamic
  import opened VideoModel

  /** What the callable function gives back for a list of ids: its decoded `data`, or an
      exception (network failure, an error the function raised). */
  datatype CallOutcome = CallThrew | CallReturned(data: KValue)

  type Callable = seq<string> -> CallOutcome

  /** `value as? String`. */
  function AsString(v: Option<KValue>): (r: Option<string>)
    ensures r.Some? <==> v.Some? && v.value.KString?
    ensures r.Some? ==> v.value == KString(r.value)
  {
    if v.Some? && v.value.KString? then Some(v.value.s) else None
  }

  /** `value as? Long`: an `Int` is not a `Long`, so only a long value passes. */
  function AsLong(v: Option<KValue>): (r: Option<int>)
    ensures r.Some? <==> v.Some? && v.value.KLong?
    ensures r.Some? ==> v.value == KLong(r.value)
  {
    if v.Some? && v.value.KLong? then Some(v.value.l) else None
  }

  /** `(value as? Number)?.toLong()`. */
  function NumberToLong(v: Option<KValue>): (r: Option<int>)
    ensures r.Some? <==> v.Some? && (v.value.KInt? || v.value.KLong?)
    ensures r.Some? ==> v.value == KInt(r.value) || v.value == KLong(r.value)
  {
    match v
    case Some(KInt(i)) => Some(i)
    case Some(KLong(l)) => Some(l)
    case _ => None
  }

  /** `(value as? Number)?.toInt()`: a long is cut to its low 32 bits. */
  function NumberToInt(v: Option<KValue>): (r: Option<int>)
    ensures r.Some? <==> NumberToLong(v).Some?
    ensures r.Some? ==> INT_MIN <= r.value <= INT_MAX && Wrap32(NumberToLong(v).value) == r.value
  {
    match NumberToLong(v)
    case Some(n) => Some(Wrap32(n))
    case None => None
  }

  /** One entry of the response decoded into a video. A field that is missing or of another
      type takes its default: title "Video", empty channel and thumbnail, published at 0,
      duration 0, no counts. */
  function DecodeVideo(videoId: string, data: seq<(string, KValue)>): (v: YouTubeVideo)
    ensures v.videoId == videoId
    ensures v.title == AsString(Lookup(data, "title")).GetOr("Video")
    ensures v.channelTitle == AsString(Lookup(data, "channelTitle")).GetOr("")
    ensures v.publishedAt == AsLong(Lookup(data, "publishedAt")).GetOr(0)
    ensures v.durationSeconds == NumberToInt(Lookup(data, "durationSeconds")).GetOr(0)
    ensures v.thumbnailUrl == AsString(Lookup(data, "bestThumbnailUrl")).GetOr("")
    ensures v.viewCount == NumberToLong(Lookup(data, "viewCount"))
    ensures v.likeCount == NumberToLong(Lookup(data, "likeCount"))
  {
    YouTubeVideo(
      videoId := videoId,
      title := AsString(Lookup(data, "title")).GetOr("Video"),
      channelTitle := AsString(Lookup(data, "channelTitle")).GetOr(""),
      publishedAt := AsLong(Lookup(data, "publishedAt")).GetOr(0),
      durationSeconds := NumberToInt(Lookup(data, "durationSeconds")).GetOr(0),
      thumbnailUrl := AsString(Lookup(data, "bestThumbnailUrl")).GetOr(""),
      viewCount := NumberToLong(Lookup(data, "viewCount")),
      likeCount := NumberToLong(Lookup(data, "likeCount")))
  }

  /** Every value of the response is itself a map; a value that is not makes the decoding
      throw (the unchecked cast fails on first use), which is caught. */
  predicate AllMaps(entries: seq<(string, KValue)>) {
    forall e | e in entries :: e.1.KMap?
  }

  function Keys(entries: seq<(string, KValue)>): set<string> {
    set e | e in entries :: e.0
  }

  /** `getVideosMetadata`: an empty list answers at once with an empty map; any exception, a
      response that is not a map, or an entry that is not a map gives an empty map; otherwise
      one video per response key, whatever ids were asked for. */
  function GetVideosMetadata(ids: seq<string>, callable: Callable): (r: map<string, YouTubeVideo>)
    ensures ids == [] ==> r == map[]
    ensures ids != [] && callable(ids).CallThrew? ==> r == map[]
    ensures ids != [] && callable(ids).CallReturned? && !callable(ids).data.KMap? ==> r == map[]
    ensures r != map[] ==> ids != [] && callable(ids).CallReturned? && callable(ids).data.KMap?
    ensures ids != [] && callable(ids).CallReturned? && callable(ids).data.KMap? ==>
              var entries := callable(ids).data.entries;
              r.Keys == if AllMaps(entries) then Keys(entries) else {}
    ensures forall k | k in r :: r[k].videoId == k
    ensures forall k | k in r ::
              && callable(ids).CallReturned? && callable(ids).data.KMap?
              && Lookup(callable(ids).data.entries, k).Some? && Lookup(callable(ids).data.entries, k).value.KMap?
              && r[k] == DecodeVideo(k, Lookup(callable(ids).data.entries, k).value.entries)
  {
    if ids == [] then map[]
    else
      match callable(ids)
      case CallReturned(KMap(entries)) =>
        if AllMaps(entries) then
          map k | k in Keys(entries) :: DecodeVideo(k, Lookup(entries, k).value.entries)
        else map[]
      case _ => map[]
  }

  /** `getVideoMetadata`: the entry for the one id asked for, if the answer has it. */
  function GetVideoMetadata(videoId: string, callable: Callable): (r: Option<YouTubeVideo>)
    ensures r.Some? <==> videoId in GetVideosMetadata([videoId], callable)
    ensures r.Some? ==> r.value.videoId == videoId && r.value == GetVideosMetadata([videoId], callable)[videoId]
  {
    var all := GetVideosMetadata([videoId], callable);
    if videoId in all then Some(all[videoId]) else None
  }
}
