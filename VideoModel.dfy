/** The client's video records (`YouTubeVideo.kt`), with the defaults their constructors give. */
module VideoModel {
  import opened Wrappers

  /** A video as the detail screen shows it. */
  datatype YouTubeVideo = YouTubeVideo(
    videoId: string,
    title: string,
    channelTitle: string := "",
    publishedAt: int := 0,
    durationSeconds: int := 0,
    thumbnailUrl: string := "",
    viewCount: Option<int> := None,
    likeCount: Option<int> := None)

  datatype VideoStats = VideoStats(viewCount: int := 0, likeCount: int := 0)

  /** The four thumbnail URLs of a cached video; an empty URL means "not available". */
  datatype YouTubeThumbnails = YouTubeThumbnails(
    defaultUrl: string := "",
    mediumUrl: string := "",
    highUrl: string := "",
    maxresUrl: string := "")
  {
    /** The URLs from the largest image to the smallest. */
    function BySize(): seq<string> {
      [maxresUrl, highUrl, mediumUrl, defaultUrl]
    }

    /** `bestUrl`: the largest available thumbnail. It is always one of the four fields (no
        URL is made up), empty only when all four are, and the first non-empty one by size. */
    function BestUrl(): (r: string)
      ensures r in BySize()
      ensures r == "" <==> forall i | 0 <= i < 4 :: BySize()[i] == ""
      ensures forall i | 0 <= i < 4 && BySize()[i] != "" && (forall j | 0 <= j < i :: BySize()[j] == "") ::
                r == BySize()[i]
    {
      var b := BySize();
      assert b[0] == maxresUrl && b[1] == highUrl && b[2] == mediumUrl && b[3] == defaultUrl;
      if maxresUrl != "" then maxresUrl
      else if highUrl != "" then highUrl
      else if mediumUrl != "" then mediumUrl
      else defaultUrl
    }
  }

  /** The cached record as the client reads it from the cache collection. */
  datatype YouTubeVideoCache = YouTubeVideoCache(
    videoId: string,
    title: string,
    channelTitle: string,
    publishedAt: int,
    durationIso: string,
    durationSeconds: int,
    thumbnails: YouTubeThumbnails,
    lastFetchedAt: int,
    stats: Option<VideoStats> := None,
    statsFetchedAt: Option<int> := None)

  /** The constructors' defaults: empty URLs, zero counts, no statistics. */
  lemma Defaults(videoId: string, title: string, th: YouTubeThumbnails, at: int)
    ensures var v := YouTubeVideo(videoId, title);
            v.channelTitle == "" && v.publishedAt == 0 && v.durationSeconds == 0 &&
            v.thumbnailUrl == "" && v.viewCount.None? && v.likeCount.None?
    ensures YouTubeThumbnails().BestUrl() == ""
    ensures VideoStats() == VideoStats(0, 0)
    ensures var c := YouTubeVideoCache(videoId, title, "", at, "PT0S", 0, th, at);
            c.stats.None? && c.statsFetchedAt.None?
  {
  }

  /** Filling in a smaller thumbnail never changes the best URL once a larger one exists. */
  lemma BestUrlIgnoresSmaller(th: YouTubeThumbnails, url: string)
    requires th.maxresUrl != ""
    ensures th.(highUrl := url).BestUrl() == th.BestUrl()
    ensures th.(mediumUrl := url).BestUrl() == th.BestUrl()
    ensures th.(defaultUrl := url).BestUrl() == th.BestUrl()
  {
  }
}
