/** Decoding a musician document (`MusicianMapper`): every field read leniently, with a
    default for what is missing or of an unexpected type. */
module MusicianMapper {
  import opened Wrappers
  import opened Text
  import opened Dynamic
  import opened Musicians
  import opened Lists

  const FIELD_NAME := "name"
  const FIELD_IMAGE_URL := "imageUrl"
  const FIELD_GENRE := "genre"
  const FIELD_LOCATION := "location"
  const FIELD_BIO := "bio"
  const FIELD_INSTAGRAM := "instagram"
  const FIELD_TIKTOK := "tiktok"
  const FIELD_YOUTUBE_CHANNEL := "youtubeChannel"
  const FIELD_YOUTUBE_URLS := "youtubeUrls"
  const FIELD_IS_HIGHLIGHTED := "isHighlighted"
  const FIELD_IS_VERIFIED := "isVerified"
  const FIELD_UPVOTE_COUNT := "upvoteCount"
  const FIELD_CATEGORIES := "categories"
  const FIELD_UPDATED_AT := "updatedAt"
  const FIELD_TIMESTAMP := "timestamp"
  const FIELD_TERRITORY := "territory"
  const FIELD_MONETIZE := "monetize"
  const FIELD_RATE := "rate"
  const FIELD_APPLE_MUSIC := "appleMusic"
  const FIELD_SPOTIFY := "spotify"
  const FIELD_CONTACT_EMAIL := "contactEmail"
  const FIELD_CONTACT_PHONE := "contactPhone"
  const FIELD_MANAGER_NAME := "managerName"
  const FIELD_MANAGER_EMAIL := "managerEmail"
  const FIELD_PRESS_KIT_URL := "pressKitUrl"

  /** A stored document: its id and its data, absent when the document does not exist. */
  datatype Document = Document(id: string, data: Option<map<string, KValue>>)

  function Field(data: map<string, KValue>, key: string): Option<KValue> {
    if key in data then Some(data[key]) else None
  }

  /** `value?.toString() ?: ""`. */
  function TextOf(v: Option<KValue>): (r: string)
    ensures v.None? || v == Some(KNull) ==> r == ""
    ensures v.Some? && v.value.KString? ==> r == v.value.s
    ensures v.Some? && !v.value.KNull? ==> r == ToString(v.value)
  {
    match v
    case None => ""
    case Some(KNull) => ""
    case Some(x) => ToString(x)
  }

  /** `value as? Boolean ?: false`. */
  function Flag(v: Option<KValue>): (r: bool)
    ensures r <==> v == Some(KBool(true))
  {
    v.Some? && v.value.KBool? && v.value.b
  }

  /** The items `mapNotNull` keeps: every one except null. */
  function NonNull(): KValue -> bool {
    (x: KValue) => !x.KNull?
  }

  /** The text an item stands for. */
  function ItemText(): KValue -> string {
    (x: KValue) => ToString(x)
  }

  /** The items of a list with the nulls dropped, strings kept and anything else replaced
      by its text, in list order. */
  function ItemTexts(items: seq<KValue>): (r: seq<string>)
    ensures MapsFiltered(r, items, NonNull(), ItemText())
  {
    if items == [] then []
    else
      var rest := ItemTexts(items[1..]);
      assert items == [items[0]] + items[1..];
      MapsFilteredCons(items[0], items[1..], rest, NonNull(), ItemText());
      if items[0].KNull? then rest
      else
        assert NonNull()(items[0]) && ItemText()(items[0]) == ToString(items[0]);
        [ToString(items[0])] + rest
  }

  /** Every string item of a list is among its texts. */
  lemma ItemTextsKeepStrings(items: seq<KValue>)
    ensures forall s | KString(s) in items :: s in ItemTexts(items)
  {
    var r, kept := ItemTexts(items), Filter(items, NonNull());
    forall s | KString(s) in items ensures s in r {
      assert NonNull()(KString(s));
      var i :| 0 <= i < |kept| && kept[i] == KString(s);
      assert r[i] == ItemText()(kept[i]) == s;
    }
  }

  /** `extractStringList`: the texts of a list's non-null items, in order; anything other
      than a list gives an empty list. */
  function ExtractStringList(v: Option<KValue>): (r: seq<string>)
    ensures !(v.Some? && v.value.KList?) ==> r == []
    ensures v.Some? && v.value.KList? ==> MapsFiltered(r, v.value.items, NonNull(), ItemText())
    ensures v.Some? && v.value.KList? ==> forall s | KString(s) in v.value.items :: s in r
  {
    if v.Some? && v.value.KList? then
      ItemTextsKeepStrings(v.value.items);
      ItemTexts(v.value.items)
    else []
  }

  /** `extractNumber`: a long as is, an int widened, a string parsed as a long (0 when it does
      not parse), anything else 0. */
  function ExtractNumber(v: Option<KValue>): (r: int)
    ensures v.Some? && (v.value.KLong? || v.value.KInt?) ==> r == if v.value.KLong? then v.value.l else v.value.i
    ensures v.Some? && v.value.KString? ==> r == ToLongOrNull(v.value.s).GetOr(0)
    ensures !(v.Some? && (v.value.KLong? || v.value.KInt? || v.value.KString?)) ==> r == 0
  {
    match v
    case Some(KLong(l)) => l
    case Some(KInt(i)) => i
    case Some(KString(s)) => ToLongOrNull(s).GetOr(0)
    case _ => 0
  }

  /** A timestamp's instant in milliseconds since the epoch (`toDate().time`). */
  function Millis(seconds: int, nanoseconds: int): int {
    seconds * 1000 + Quot(nanoseconds, 1_000_000)
  }

  /** `extractTimestamp`: a timestamp's milliseconds, a long as is; anything else, an int
      included, gives 0. */
  function ExtractTimestamp(v: Option<KValue>): (r: int)
    ensures v.Some? && v.value.KTimestamp? ==> r == Millis(v.value.seconds, v.value.nanoseconds)
    ensures v.Some? && v.value.KLong? ==> r == v.value.l
    ensures !(v.Some? && (v.value.KTimestamp? || v.value.KLong?)) ==> r == 0
  {
    match v
    case Some(KTimestamp(seconds, nanoseconds)) => Millis(seconds, nanoseconds)
    case Some(KLong(l)) => l
    case _ => 0
  }

  /** `fromDocument`: no data gives no musician; otherwise a musician with the document's id
      and every field decoded from the data. */
  function FromDocument(doc: Document): (r: Option<Musician>)
    ensures r.None? <==> doc.data.None?
    ensures r.Some? ==> r.value.id == doc.id
    ensures r.Some? ==> INT_MIN <= r.value.upvoteCount <= INT_MAX
    ensures r.Some? ==> var data := doc.data.value;
              && (r.value.isHighlighted <==> Field(data, FIELD_IS_HIGHLIGHTED) == Some(KBool(true)))
              && (r.value.isVerified <==> Field(data, FIELD_IS_VERIFIED) == Some(KBool(true)))
              && (r.value.monetize <==> Field(data, FIELD_MONETIZE) == Some(KBool(true)))
              && r.value.upvoteCount == Wrap32(ExtractNumber(Field(data, FIELD_UPVOTE_COUNT)))
              && r.value.rate == ExtractNumber(Field(data, FIELD_RATE))
              && r.value.updatedAt == ExtractTimestamp(Field(data, FIELD_UPDATED_AT))
              && r.value.timestamp == ExtractTimestamp(Field(data, FIELD_TIMESTAMP))
              && r.value.youtubeUrls == ExtractStringList(Field(data, FIELD_YOUTUBE_URLS))
              && r.value.categories == ExtractStringList(Field(data, FIELD_CATEGORIES))
    ensures r.Some? ==> var data := doc.data.value;
              && r.value.name == TextOf(Field(data, FIELD_NAME))
              && r.value.imageUrl == TextOf(Field(data, FIELD_IMAGE_URL))
              && r.value.genre == TextOf(Field(data, FIELD_GENRE))
              && r.value.location == TextOf(Field(data, FIELD_LOCATION))
              && r.value.bio == TextOf(Field(data, FIELD_BIO))
              && r.value.instagram == TextOf(Field(data, FIELD_INSTAGRAM))
              && r.value.tiktok == TextOf(Field(data, FIELD_TIKTOK))
              && r.value.youtubeChannel == TextOf(Field(data, FIELD_YOUTUBE_CHANNEL))
              && r.value.territory == TextOf(Field(data, FIELD_TERRITORY))
              && r.value.appleMusic == TextOf(Field(data, FIELD_APPLE_MUSIC))
              && r.value.spotify == TextOf(Field(data, FIELD_SPOTIFY))
              && r.value.contactEmail == TextOf(Field(data, FIELD_CONTACT_EMAIL))
              && r.value.contactPhone == TextOf(Field(data, FIELD_CONTACT_PHONE))
              && r.value.managerName == TextOf(Field(data, FIELD_MANAGER_NAME))
              && r.value.managerEmail == TextOf(Field(data, FIELD_MANAGER_EMAIL))
              && r.value.pressKitUrl == TextOf(Field(data, FIELD_PRESS_KIT_URL))
  {
    match doc.data
    case None => None
    case Some(data) =>
      Some(Musician(
        id := doc.id,
        name := TextOf(Field(data, FIELD_NAME)),
        imageUrl := TextOf(Field(data, FIELD_IMAGE_URL)),
        genre := TextOf(Field(data, FIELD_GENRE)),
        location := TextOf(Field(data, FIELD_LOCATION)),
        bio := TextOf(Field(data, FIELD_BIO)),
        instagram := TextOf(Field(data, FIELD_INSTAGRAM)),
        tiktok := TextOf(Field(data, FIELD_TIKTOK)),
        youtubeChannel := TextOf(Field(data, FIELD_YOUTUBE_CHANNEL)),
        youtubeUrls := ExtractStringList(Field(data, FIELD_YOUTUBE_URLS)),
        isHighlighted := Flag(Field(data, FIELD_IS_HIGHLIGHTED)),
        isVerified := Flag(Field(data, FIELD_IS_VERIFIED)),
        upvoteCount := Wrap32(ExtractNumber(Field(data, FIELD_UPVOTE_COUNT))),
        categories := ExtractStringList(Field(data, FIELD_CATEGORIES)),
        territory := TextOf(Field(data, FIELD_TERRITORY)),
        monetize := Flag(Field(data, FIELD_MONETIZE)),
        rate := ExtractNumber(Field(data, FIELD_RATE)),
        appleMusic := TextOf(Field(data, FIELD_APPLE_MUSIC)),
        spotify := TextOf(Field(data, FIELD_SPOTIFY)),
        contactEmail := TextOf(Field(data, FIELD_CONTACT_EMAIL)),
        contactPhone := TextOf(Field(data, FIELD_CONTACT_PHONE)),
        managerName := TextOf(Field(data, FIELD_MANAGER_NAME)),
        managerEmail := TextOf(Field(data, FIELD_MANAGER_EMAIL)),
        pressKitUrl := TextOf(Field(data, FIELD_PRESS_KIT_URL)),
        updatedAt := ExtractTimestamp(Field(data, FIELD_UPDATED_AT)),
        timestamp := ExtractTimestamp(Field(data, FIELD_TIMESTAMP))))
  }

  /** A document with no fields at all decodes to the record's defaults. */
  lemma EmptyDocumentDefaults(id: string)
    ensures FromDocument(Document(id, Some(map[]))) == Some(Musician(id := id))
  {
  }

  /** The timestamp a store makes of an instant given in milliseconds: whole seconds rounded
      down and the remaining milliseconds as nanoseconds. */
  function TimestampOf(millis: int): KValue {
    KTimestamp(millis / 1000, millis % 1000 * 1_000_000)
  }

  lemma TimestampRoundTrip(millis: int)
    ensures ExtractTimestamp(Some(TimestampOf(millis))) == millis
  {
    var ns := millis % 1000 * 1_000_000;
    assert 0 <= ns && Quot(ns, 1_000_000) == millis % 1000;
  }

  /** A number written as text is read back, over the whole range of a long. */
  lemma NumberTextRoundTrip(x: int)
    requires LONG_MIN <= x <= LONG_MAX
    ensures ExtractNumber(Some(KString(IntToDecimal(x)))) == x
  {
    LongRoundTrip(x);
  }

  function Strings(xs: seq<string>): (r: seq<KValue>)
    ensures |r| == |xs| && forall i | 0 <= i < |xs| :: r[i] == KString(xs[i])
  {
    seq(|xs|, i requires 0 <= i < |xs| => KString(xs[i]))
  }

  /** A list of strings is read back as the same strings in the same order. */
  lemma StringListRoundTrip(xs: seq<string>)
    ensures ExtractStringList(Some(KList(Strings(xs)))) == xs
  {
    var items := Strings(xs);
    forall x | x in items ensures NonNull()(x) {
      var i :| 0 <= i < |items| && items[i] == x;
    }
    FilterAll(items, NonNull());
    var r := ItemTexts(items);
    assert MapsFiltered(r, items, NonNull(), ItemText());
    assert |r| == |xs|;
    forall i | 0 <= i < |r| ensures r[i] == xs[i] {
      assert r[i] == ItemText()(items[i]) == ToString(KString(xs[i]));
    }
    assert ExtractStringList(Some(KList(items))) == r;
  }

  /** The document a musician is stored as: texts, lists of texts, booleans, whole numbers
      as longs and instants as timestamps. */
  function ToDocument(m: Musician): map<string, KValue> {
    map[
      FIELD_NAME := KString(m.name),
      FIELD_IMAGE_URL := KString(m.imageUrl),
      FIELD_GENRE := KString(m.genre),
      FIELD_LOCATION := KString(m.location),
      FIELD_BIO := KString(m.bio),
      FIELD_INSTAGRAM := KString(m.instagram),
      FIELD_TIKTOK := KString(m.tiktok),
      FIELD_YOUTUBE_CHANNEL := KString(m.youtubeChannel),
      FIELD_YOUTUBE_URLS := KList(Strings(m.youtubeUrls)),
      FIELD_IS_HIGHLIGHTED := KBool(m.isHighlighted),
      FIELD_IS_VERIFIED := KBool(m.isVerified),
      FIELD_UPVOTE_COUNT := KLong(m.upvoteCount),
      FIELD_CATEGORIES := KList(Strings(m.categories)),
      FIELD_TERRITORY := KString(m.territory),
      FIELD_MONETIZE := KBool(m.monetize),
      FIELD_RATE := KLong(m.rate),
      FIELD_APPLE_MUSIC := KString(m.appleMusic),
      FIELD_SPOTIFY := KString(m.spotify),
      FIELD_CONTACT_EMAIL := KString(m.contactEmail),
      FIELD_CONTACT_PHONE := KString(m.contactPhone),
      FIELD_MANAGER_NAME := KString(m.managerName),
      FIELD_MANAGER_EMAIL := KString(m.managerEmail),
      FIELD_PRESS_KIT_URL := KString(m.pressKitUrl),
      FIELD_UPDATED_AT := TimestampOf(m.updatedAt),
      FIELD_TIMESTAMP := TimestampOf(m.timestamp)]
  }

  /** The fields of a stored musician, five at a time. */
  lemma StoredFields0(m: Musician)
    ensures var d := ToDocument(m);
            Field(d, FIELD_NAME) == Some(KString(m.name))
            && Field(d, FIELD_IMAGE_URL) == Some(KString(m.imageUrl))
            && Field(d, FIELD_GENRE) == Some(KString(m.genre))
            && Field(d, FIELD_LOCATION) == Some(KString(m.location))
            && Field(d, FIELD_BIO) == Some(KString(m.bio))
  {
  }

  lemma StoredFields1(m: Musician)
    ensures var d := ToDocument(m);
            Field(d, FIELD_INSTAGRAM) == Some(KString(m.instagram))
            && Field(d, FIELD_TIKTOK) == Some(KString(m.tiktok))
            && Field(d, FIELD_YOUTUBE_CHANNEL) == Some(KString(m.youtubeChannel))
            && Field(d, FIELD_YOUTUBE_URLS) == Some(KList(Strings(m.youtubeUrls)))
            && Field(d, FIELD_IS_HIGHLIGHTED) == Some(KBool(m.isHighlighted))
  {
  }

  lemma StoredFields2(m: Musician)
    ensures var d := ToDocument(m);
            Field(d, FIELD_IS_VERIFIED) == Some(KBool(m.isVerified))
            && Field(d, FIELD_UPVOTE_COUNT) == Some(KLong(m.upvoteCount))
            && Field(d, FIELD_CATEGORIES) == Some(KList(Strings(m.categories)))
            && Field(d, FIELD_TERRITORY) == Some(KString(m.territory))
            && Field(d, FIELD_MONETIZE) == Some(KBool(m.monetize))
  {
  }

  lemma StoredFields3(m: Musician)
    ensures var d := ToDocument(m);
            Field(d, FIELD_RATE) == Some(KLong(m.rate))
            && Field(d, FIELD_APPLE_MUSIC) == Some(KString(m.appleMusic))
            && Field(d, FIELD_SPOTIFY) == Some(KString(m.spotify))
            && Field(d, FIELD_CONTACT_EMAIL) == Some(KString(m.contactEmail))
            && Field(d, FIELD_CONTACT_PHONE) == Some(KString(m.contactPhone))
  {
  }

  lemma StoredFields4(m: Musician)
    ensures var d := ToDocument(m);
            Field(d, FIELD_MANAGER_NAME) == Some(KString(m.managerName))
            && Field(d, FIELD_MANAGER_EMAIL) == Some(KString(m.managerEmail))
            && Field(d, FIELD_PRESS_KIT_URL) == Some(KString(m.pressKitUrl))
            && Field(d, FIELD_UPDATED_AT) == Some(TimestampOf(m.updatedAt))
            && Field(d, FIELD_TIMESTAMP) == Some(TimestampOf(m.timestamp))
  {
  }

  /** The fields of a stored musician read back, five at a time. */
  lemma ReadBack0(m: Musician)
    ensures var d := ToDocument(m);
            TextOf(Field(d, FIELD_NAME)) == m.name && TextOf(Field(d, FIELD_IMAGE_URL)) == m.imageUrl
            && TextOf(Field(d, FIELD_GENRE)) == m.genre && TextOf(Field(d, FIELD_LOCATION)) == m.location
            && TextOf(Field(d, FIELD_BIO)) == m.bio
  {
    StoredFields0(m);
  }

  lemma ReadBack1(m: Musician)
    ensures var d := ToDocument(m);
            TextOf(Field(d, FIELD_INSTAGRAM)) == m.instagram && TextOf(Field(d, FIELD_TIKTOK)) == m.tiktok
            && TextOf(Field(d, FIELD_YOUTUBE_CHANNEL)) == m.youtubeChannel
            && ExtractStringList(Field(d, FIELD_YOUTUBE_URLS)) == m.youtubeUrls
            && Flag(Field(d, FIELD_IS_HIGHLIGHTED)) == m.isHighlighted
  {
    StoredFields1(m);
    StringListRoundTrip(m.youtubeUrls);
  }

  lemma ReadBack2(m: Musician)
    requires INT_MIN <= m.upvoteCount <= INT_MAX
    ensures var d := ToDocument(m);
            Flag(Field(d, FIELD_IS_VERIFIED)) == m.isVerified
            && Wrap32(ExtractNumber(Field(d, FIELD_UPVOTE_COUNT))) == m.upvoteCount
            && ExtractStringList(Field(d, FIELD_CATEGORIES)) == m.categories
            && TextOf(Field(d, FIELD_TERRITORY)) == m.territory && Flag(Field(d, FIELD_MONETIZE)) == m.monetize
  {
    StoredFields2(m);
    StringListRoundTrip(m.categories);
  }

  lemma ReadBack3(m: Musician)
    ensures var d := ToDocument(m);
            ExtractNumber(Field(d, FIELD_RATE)) == m.rate && TextOf(Field(d, FIELD_APPLE_MUSIC)) == m.appleMusic
            && TextOf(Field(d, FIELD_SPOTIFY)) == m.spotify
            && TextOf(Field(d, FIELD_CONTACT_EMAIL)) == m.contactEmail
            && TextOf(Field(d, FIELD_CONTACT_PHONE)) == m.contactPhone
  {
    StoredFields3(m);
  }

  lemma ReadBack4(m: Musician)
    ensures var d := ToDocument(m);
            TextOf(Field(d, FIELD_MANAGER_NAME)) == m.managerName
            && TextOf(Field(d, FIELD_MANAGER_EMAIL)) == m.managerEmail
            && TextOf(Field(d, FIELD_PRESS_KIT_URL)) == m.pressKitUrl
            && ExtractTimestamp(Field(d, FIELD_UPDATED_AT)) == m.updatedAt
            && ExtractTimestamp(Field(d, FIELD_TIMESTAMP)) == m.timestamp
  {
    StoredFields4(m);
    TimestampRoundTrip(m.updatedAt);
    TimestampRoundTrip(m.timestamp);
  }

  /** Storing a musician and decoding the document gives the musician back, provided its vote
      count fits an `Int`. */
  lemma DocumentRoundTrip(m: Musician)
    requires INT_MIN <= m.upvoteCount <= INT_MAX
    ensures FromDocument(Document(m.id, Some(ToDocument(m)))) == Some(m)
  {
    ReadBack0(m);
    ReadBack1(m);
    ReadBack2(m);
    ReadBack3(m);
    ReadBack4(m);
  }
}
