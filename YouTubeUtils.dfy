/** The client's YouTube helpers (`YouTubeUtils`): video-id extraction from a URL, thumbnail
    URL templates, clock-style duration text and the ISO 8601 duration reader. */
module YouTubeUtils {
  import opened Wrappers
  import opened Text
  import opened DurationGrammar

  const ID_LENGTH: nat := 11

  /** The fixed text of each URL pattern, in the order they are tried. Each pattern is this
      text behind an optional `http://`/`https://` and an optional `www.`, followed by an
      11-character id. Matching is unanchored, and the optional prefix can neither create a
      match nor move the capture: the prefix text contains no 'y' or 'm', so no occurrence of
      a pattern's text starts inside it. */
  const MARKERS: seq<string> := [
    "youtube.com/watch?v=", "youtu.be/", "youtube.com/shorts/", "youtube.com/embed/", "m.youtube.com/watch?v="]

  /** Eleven id characters start at index `i`. */
  predicate IdAt(url: string, i: nat) {
    i + ID_LENGTH <= |url| && forall k | i <= k < i + ID_LENGTH :: IsIdChar(url[k])
  }

  /** A pattern with text `marker` matches with its text at index `q`. */
  predicate MatchAt(url: string, marker: string, q: nat) {
    OccursAt(url, q, marker) && IdAt(url, q + |marker|)
  }

  /** The leftmost match of a pattern at or after `from`. */
  function FindFrom(url: string, marker: string, from: nat): (r: Option<nat>)
    ensures r.Some? ==> from <= r.value && MatchAt(url, marker, r.value)
    ensures r.Some? ==> forall q | from <= q < r.value :: !MatchAt(url, marker, q)
    ensures r.None? ==> forall q | from <= q :: !MatchAt(url, marker, q)
    decreases |url| - from
  {
    if |url| < from + |marker| then None
    else if MatchAt(url, marker, from) then Some(from)
    else FindFrom(url, marker, from + 1)
  }

  /** No occurrence of the pattern with text `marker` anywhere in `url`. */
  ghost predicate NoMatch(url: string, marker: string) {
    forall q :: !MatchAt(url, marker, q)
  }

  /** `q` is where the leftmost match of the pattern with text `marker` begins. */
  ghost predicate LeftmostMatch(url: string, marker: string, q: nat) {
    MatchAt(url, marker, q) && forall q': nat | q' < q :: !MatchAt(url, marker, q')
  }

  /** The eleven characters captured by a match whose text begins at `q`. */
  function Capture(url: string, marker: string, q: nat): string
    requires MatchAt(url, marker, q)
  {
    url[q + |marker|..q + |marker| + ID_LENGTH]
  }

  /** `pattern.find(url)?.groupValues[1]` for the pattern with text `marker`: the id after
      the leftmost match. */
  function FindId(url: string, marker: string): (r: Option<string>)
    ensures r.Some? ==> |r.value| == ID_LENGTH && forall k | 0 <= k < |r.value| :: IsIdChar(r.value[k])
    ensures r.None? <==> NoMatch(url, marker)
    ensures forall q | LeftmostMatch(url, marker, q) :: r == Some(Capture(url, marker, q))
  {
    match FindFrom(url, marker, 0)
    case None => None
    case Some(q) =>
      assert forall q' | LeftmostMatch(url, marker, q') :: q' == q;
      Some(url[q + |marker|..q + |marker| + ID_LENGTH])
  }

  /** The patterns from `markers` tried in order; the first one that matches gives the id. */
  function ExtractWith(url: string, markers: seq<string>): (r: Option<string>)
    ensures r.Some? ==> |r.value| == ID_LENGTH && forall k | 0 <= k < |r.value| :: IsIdChar(r.value[k])
    ensures r.None? <==> forall i | 0 <= i < |markers| :: FindId(url, markers[i]).None?
    ensures forall i | 0 <= i < |markers| && FindId(url, markers[i]).Some? &&
                       (forall j | 0 <= j < i :: FindId(url, markers[j]).None?) ::
              r == FindId(url, markers[i])
  {
    if markers == [] then None
    else
      var first := FindId(url, markers[0]);
      if first.Some? then first
      else
        var rest := ExtractWith(url, markers[1..]);
        assert forall i | 1 <= i < |markers| :: markers[i] == markers[1..][i - 1];
        rest
  }

  /** `extractYouTubeId`: the first pattern in list order that matches anywhere decides,
      and the id is what its leftmost match captures. */
  function ExtractYouTubeId(url: string): (r: Option<string>)
    ensures r.Some? ==> |r.value| == ID_LENGTH && forall k | 0 <= k < |r.value| :: IsIdChar(r.value[k])
    ensures r.None? <==> forall i | 0 <= i < |MARKERS| :: NoMatch(url, MARKERS[i])
    ensures forall i, q | 0 <= i < |MARKERS| && (forall j | 0 <= j < i :: NoMatch(url, MARKERS[j])) &&
                          LeftmostMatch(url, MARKERS[i], q) ::
              r == Some(Capture(url, MARKERS[i], q))
  {
    ExtractWith(url, MARKERS)
  }

  /** The pattern tried first wins, even where a later pattern matches earlier in the URL. */
  lemma ExtractPrefersEarlierPattern(url: string, i: nat)
    requires i < |MARKERS| && FindId(url, MARKERS[i]).Some?
    requires forall j | 0 <= j < i :: FindId(url, MARKERS[j]).None?
    ensures ExtractYouTubeId(url) == FindId(url, MARKERS[i])
  {
  }

  /** The mobile pattern's text contains the first pattern's text, so wherever the mobile
      pattern matches, the first pattern matches too and is tried before it. */
  lemma MobilePatternSubsumed(url: string)
    requires FindId(url, MARKERS[4]).Some?
    ensures FindId(url, MARKERS[0]).Some?
    ensures ExtractYouTubeId(url) == FindId(url, MARKERS[0])
  {
    var q := FindFrom(url, MARKERS[4], 0).value;
    var m0, m4 := MARKERS[0], MARKERS[4];
    assert m4 == "m." + m0;
    assert url[q + 2..q + 2 + |m0|] == url[q..q + |m4|][2..];
    assert MatchAt(url, m0, q + 2);
  }

  /** A short link gives the id after it; a short tail after the eleventh character (such
      as a "?t=42" start time) is ignored. */
  lemma ExtractShortLink(id: string, tail: string)
    requires |id| == ID_LENGTH && forall k | 0 <= k < |id| :: IsIdChar(id[k])
    requires |tail| < ID_LENGTH
    ensures ExtractYouTubeId("youtu.be/" + id + tail) == Some(id)
  {
    var url := "youtu.be/" + id + tail;
    assert MatchAt(url, MARKERS[1], 0);
    assert FindFrom(url, MARKERS[1], 0) == Some(0);
    assert url[9..20] == id;
    // the first pattern needs 20 + 11 characters, more than the link has
    assert forall q :: !MatchAt(url, MARKERS[0], q);
  }

  datatype ThumbnailQuality = DEFAULT | MEDIUM | HIGH | STANDARD | MAXRES

  /** The image name YouTube serves for each quality. */
  function ImageName(quality: ThumbnailQuality): string {
    match quality
    case DEFAULT => "default"
    case MEDIUM => "mqdefault"
    case HIGH => "hqdefault"
    case STANDARD => "sddefault"
    case MAXRES => "maxresdefault"
  }

  const IMG_PREFIX: string := "https://img.youtube.com/vi/"

  function ImageSuffix(quality: ThumbnailQuality): string {
    "/" + ImageName(quality) + ".jpg"
  }

  /** `getThumbnailUrl`. */
  function GetThumbnailUrl(videoId: string, quality: ThumbnailQuality := MAXRES): (r: string)
    ensures r == IMG_PREFIX + videoId + ImageSuffix(quality)
  {
    IMG_PREFIX + videoId + "/" + ImageName(quality) + ".jpg"
  }

  /** `getBestThumbnailUrl`: the maximum-resolution image. */
  function GetBestThumbnailUrl(videoId: string): (r: string)
    ensures r == IMG_PREFIX + videoId + "/maxresdefault.jpg"
  {
    GetThumbnailUrl(videoId, MAXRES)
  }

  /** `getFallbackThumbnailUrl`: the high-quality image. */
  function GetFallbackThumbnailUrl(videoId: string): (r: string)
    ensures r == IMG_PREFIX + videoId + "/hqdefault.jpg"
  {
    GetThumbnailUrl(videoId, HIGH)
  }

  /** Two suffixes of the same text: the shorter one ends the longer one. */
  lemma EndsWithBoth(u: string, s1: string, s2: string)
    requires |s1| <= |u| && |s2| <= |u| && u[|u| - |s1|..] == s1 && u[|u| - |s2|..] == s2
    ensures |s1| <= |s2| ==> s2[|s2| - |s1|..] == s1
    ensures |s2| <= |s1| ==> s1[|s1| - |s2|..] == s2
  {
    assert forall k | 0 <= k < |s1| :: s1[k] == u[|u| - |s1| + k];
    assert forall k | 0 <= k < |s2| :: s2[k] == u[|u| - |s2| + k];
  }

  /** No "/name.jpg" ends a longer one: the longer one has no '/' where the shorter starts. */
  lemma SuffixesDoNotNest(q1: ThumbnailQuality, q2: ThumbnailQuality)
    ensures |ImageSuffix(q1)| < |ImageSuffix(q2)| ==> ImageSuffix(q2)[|ImageSuffix(q2)| - |ImageSuffix(q1)|..] != ImageSuffix(q1)
    ensures |ImageSuffix(q1)| == |ImageSuffix(q2)| && ImageSuffix(q1) == ImageSuffix(q2) ==> q1 == q2
  {
    var s1, s2 := ImageSuffix(q1), ImageSuffix(q2);
    assert s1[0] == '/';
    if |s1| < |s2| {
      assert s2[|s2| - |s1|] != '/';
    }
    if |s1| == |s2| && s1 == s2 {
      assert s1[1] == s2[1] && s1[2] == s2[2];
    }
  }

  /** A thumbnail URL determines both the video id and the quality it was built from. */
  lemma ThumbnailUrlInjective(a: string, q1: ThumbnailQuality, b: string, q2: ThumbnailQuality)
    requires GetThumbnailUrl(a, q1) == GetThumbnailUrl(b, q2)
    ensures a == b && q1 == q2
  {
    var u := GetThumbnailUrl(a, q1);
    var s1, s2 := ImageSuffix(q1), ImageSuffix(q2);
    assert u == (IMG_PREFIX + a) + s1 && u == (IMG_PREFIX + b) + s2;
    assert u[|u| - |s1|..] == s1 && u[|u| - |s2|..] == s2;
    EndsWithBoth(u, s1, s2);
    SuffixesDoNotNest(q1, q2);
    SuffixesDoNotNest(q2, q1);
    assert (IMG_PREFIX + a) == u[..|u| - |s1|] == (IMG_PREFIX + b);
    assert a == (IMG_PREFIX + a)[|IMG_PREFIX|..];
  }

  /** `String.format("%02d", x)`: at least two characters, zero-padded after any sign. */
  function Pad2(x: int): string {
    if 0 <= x < 10 then "0" + NatToDecimal(x) else IntToDecimal(x)
  }

  /** `formatDuration`: "h:mm:ss" from an hour on, "m:ss" below it. */
  function FormatDuration(seconds: int): string
    requires INT_MIN <= seconds <= INT_MAX
  {
    var hours := Quot(seconds, 3600);
    var minutes := Quot(Rem(seconds, 3600), 60);
    var secs := Rem(seconds, 60);
    if hours > 0 then IntToDecimal(hours) + ":" + Pad2(minutes) + ":" + Pad2(secs)
    else IntToDecimal(minutes) + ":" + Pad2(secs)
  }

  /** For a non-negative duration the fields are whole hours, minutes below 60 and seconds
      below 60 that add back up to the duration, and the text is made of them. */
  lemma FormatDurationFields(s: int)
    requires 0 <= s <= INT_MAX
    ensures var h, m, sec := s / 3600, s % 3600 / 60, s % 60;
            && m < 60 && sec < 60 && h * 3600 + m * 60 + sec == s
            && FormatDuration(s) == if s >= 3600 then NatToDecimal(h) + ":" + Pad2(m) + ":" + Pad2(sec)
                                    else NatToDecimal(m) + ":" + Pad2(sec)
  {
    var h, m, sec := s / 3600, s % 3600 / 60, s % 60;
    assert Quot(s, 3600) == h && Rem(s, 3600) == s % 3600;
    assert Quot(s % 3600, 60) == m && Rem(s, 60) == sec;
    assert s % 3600 == m * 60 + sec;
  }

  /** The text split at every ':'. */
  function SplitColons(t: string): (r: seq<string>)
    ensures |r| >= 1
  {
    if t == [] then [""]
    else if t[0] == ':' then [""] + SplitColons(t[1..])
    else var rest := SplitColons(t[1..]); [[t[0]] + rest[0]] + rest[1..]
  }

  predicate NoColon(t: string) { forall i | 0 <= i < |t| :: t[i] != ':' }

  lemma {:induction false} SplitColonsField(a: string, rest: string)
    requires NoColon(a)
    ensures SplitColons(a) == [a]
    ensures SplitColons(a + ":" + rest) == [a] + SplitColons(rest)
  {
    if a != [] {
      SplitColonsField(a[1..], rest);
      assert (a + ":" + rest)[1..] == a[1..] + ":" + rest;
      assert [a[0]] + a[1..] == a;
    } else {
      assert a + ":" + rest == [':'] + rest;
    }
  }

  /** The value of clock fields, most significant first, each worth sixty of the next. */
  function Sexagesimal(fields: seq<string>): nat
    requires forall i | 0 <= i < |fields| :: AllDigits(fields[i])
  {
    if fields == [] then 0
    else Sexagesimal(fields[..|fields| - 1]) * 60 + DecimalValue(fields[|fields| - 1])
  }

  /** A clock field: one or more decimal digits. */
  predicate ClockField(f: string) { f != "" && AllDigits(f) }

  /** Two or three clock fields read as seconds. */
  function ReadFields(fields: seq<string>): Option<nat> {
    if 2 <= |fields| <= 3 && forall i | 0 <= i < |fields| :: ClockField(fields[i])
    then Some(Sexagesimal(fields)) else None
  }

  /** Reads "m:ss" or "h:mm:ss" text back as seconds: the inverse of `FormatDuration` on
      non-negative durations. */
  function ReadClock(t: string): Option<nat> {
    ReadFields(SplitColons(t))
  }

  lemma Pad2Value(x: nat)
    requires x < 60
    ensures |Pad2(x)| == 2 && AllDigits(Pad2(x)) && DecimalValue(Pad2(x)) == x
  {
    if x < 10 {
      var p := Pad2(x);
      assert p == "0" + [DigitChar(x)];
      assert p[..1] == "0" && p[1] == DigitChar(x);
      assert DecimalValue("0") == 0 by { assert "0"[..0] == ""; }
    } else {
      NatToDecimalTwoDigits(x);
      DecimalRoundTrip(x);
    }
  }

  lemma DigitsNoColon(t: string)
    requires AllDigits(t)
    ensures NoColon(t)
  {
  }

  lemma SexagesimalTwo(a: string, b: string)
    requires AllDigits(a) && AllDigits(b)
    ensures Sexagesimal([a, b]) == DecimalValue(a) * 60 + DecimalValue(b)
  {
    assert [a][..0] == [];
    assert Sexagesimal([a]) == DecimalValue(a);
    assert [a, b][..1] == [a];
  }

  lemma SexagesimalThree(a: string, b: string, c: string)
    requires AllDigits(a) && AllDigits(b) && AllDigits(c)
    ensures Sexagesimal([a, b, c]) == (DecimalValue(a) * 60 + DecimalValue(b)) * 60 + DecimalValue(c)
  {
    SexagesimalTwo(a, b);
    assert [a, b, c][..2] == [a, b];
  }

  lemma ReadTwoFields(a: string, b: string)
    requires ClockField(a) && ClockField(b)
    ensures ReadClock(a + ":" + b) == Some(DecimalValue(a) * 60 + DecimalValue(b))
  {
    DigitsNoColon(a);
    DigitsNoColon(b);
    SplitTwo(a, b);
    SexagesimalTwo(a, b);
    ReadFieldsTwo(a, b);
  }

  lemma ReadFieldsTwo(a: string, b: string)
    requires ClockField(a) && ClockField(b)
    ensures ReadFields([a, b]) == Some(Sexagesimal([a, b]))
  {
    assert forall i | 0 <= i < 2 :: ClockField([a, b][i]);
  }

  lemma SplitTwo(a: string, b: string)
    requires NoColon(a) && NoColon(b)
    ensures SplitColons(a + ":" + b) == [a, b]
  {
    SplitColonsField(a, b);
    SplitColonsField(b, "");
  }

  lemma SplitThree(a: string, b: string, c: string)
    requires NoColon(a) && NoColon(b) && NoColon(c)
    ensures SplitColons(a + ":" + b + ":" + c) == [a, b, c]
  {
    assert a + ":" + b + ":" + c == a + ":" + (b + ":" + c);
    SplitColonsField(a, b + ":" + c);
    SplitColonsField(b, c);
    SplitColonsField(c, "");
  }

  lemma ReadThreeFields(a: string, b: string, c: string)
    requires ClockField(a) && ClockField(b) && ClockField(c)
    ensures ReadClock(a + ":" + b + ":" + c) ==
            Some((DecimalValue(a) * 60 + DecimalValue(b)) * 60 + DecimalValue(c))
  {
    DigitsNoColon(a);
    DigitsNoColon(b);
    DigitsNoColon(c);
    SplitThree(a, b, c);
    SexagesimalThree(a, b, c);
  }

  /** The text `formatDuration` gives a non-negative duration determines the duration. */
  lemma FormatDurationReadBack(s: int)
    requires 0 <= s <= INT_MAX
    ensures ReadClock(FormatDuration(s)) == Some(s)
  {
    FormatDurationFields(s);
    var h, m, sec := s / 3600, s % 3600 / 60, s % 60;
    Pad2Value(m);
    Pad2Value(sec);
    if s >= 3600 {
      var hh := NatToDecimal(h);
      DecimalRoundTrip(h);
      assert FormatDuration(s) == hh + ":" + Pad2(m) + ":" + Pad2(sec);
      ReadThreeFields(hh, Pad2(m), Pad2(sec));
    } else {
      var mm := NatToDecimal(m);
      DecimalRoundTrip(m);
      assert FormatDuration(s) == mm + ":" + Pad2(sec);
      ReadTwoFields(mm, Pad2(sec));
    }
  }

  lemma FormatDurationZero()
    ensures FormatDuration(0) == "0:00"
  {
    FormatDurationFields(0);
    assert DigitChar(0) == '0';
    var zero := NatToDecimal(0);
    assert zero == "0";
    assert Pad2(0) == "0" + zero == "00";
  }

  lemma FormatDurationHourMinuteSecond()
    ensures FormatDuration(3661) == "1:01:01"
  {
    FormatDurationFields(3661);
    assert DigitChar(1) == '1';
    assert Pad2(1) == "01";
    assert NatToDecimal(1) == "1";
  }

  /** `toIntOrNull() ?: 0` of a captured group. */
  function GroupValue(g: string): (v: int)
    ensures AllDigits(g) ==> v == if DecimalValue(g) <= INT_MAX then DecimalValue(g) else 0
  {
    assert g != [] && AllDigits(g) ==> IsSignedDecimal(g) && SignedValue(g) == DecimalValue(g);
    ToIntOrNull(g).GetOr(0)
  }

  /** `parseDurationIso8601`: the pattern of the server's parser, with each group read as a
      32-bit `Int` (0 when it does not fit) and the sum computed in `Int` arithmetic. */
  function ParseDurationIso8601(duration: string): (r: int)
    ensures INT_MIN <= r <= INT_MAX
    ensures !Contains(duration, "PT") ==> r == 0
  {
    match MatchDuration(duration)
    case None => 0
    case Some(g) =>
      Wrap32(Wrap32(Wrap32(GroupValue(g.hours) * 3600) + Wrap32(GroupValue(g.minutes) * 60)) + GroupValue(g.seconds))
  }
}
