/** The response normaliser of `getInstagramVideo`
    (src/lib/instagram-service.ts, the body of the `try` block): a pure map
    from the provider's loosely typed JSON to an `InstagramData` record or the
    "no download URL" error.

    The JSON is modelled as records of optional strings. A field holding a
    non-string value is outside the model. JavaScript truthiness is kept: an
    empty string counts as absent wherever the source writes `||` or tests a
    field. */
module MediaNormalizer {
  import opened Common
  import opened Seqs
  import InstagramValidator

  /** One entry of the provider's `medias` array. */
  datatype RawMedia = RawMedia(
    url: Option<string>,
    mediaType: Option<string>,
    thumbnail: Option<string>,
    extension: Option<string>,
    quality: Option<string>,
    resolution: Option<string>)

  datatype Owner = Owner(username: Option<string>)

  /** The parsed provider body. `data` holds a nested object of the same
      shape, when there is one; `medias` is `None` when the field is absent or
      is not an array. */
  datatype Payload = Payload(
    data: Option<Payload>,
    downloadUrl: Option<string>,
    videoUrl: Option<string>,
    media: Option<string>,
    url: Option<string>,
    id: Option<string>,
    title: Option<string>,
    author: Option<string>,
    username: Option<string>,
    owner: Option<Owner>,
    thumbnail: Option<string>,
    thumbnailUrl: Option<string>,
    typeTag: Option<string>,
    medias: Option<seq<RawMedia>>)

  /** `MediaItem`. Its type is whatever tag the provider sent, or `video` /
      `image` when it sent none. */
  datatype MediaItem = MediaItem(
    url: Option<string>,
    mediaType: string,
    thumbnail: string,
    extension: Option<string>,
    quality: Option<string>)

  datatype Kind = Video | Image | Multiple

  /** `InstagramData`; the constant `platform: 'instagram'` is left out. */
  datatype InstagramData = InstagramData(
    id: string,
    url: string,
    thumbnail: string,
    title: string,
    author: Option<string>,
    kind: Kind,
    medias: seq<MediaItem>)

  const NoDownloadUrl := "Could not find download URL in API response"
  const DefaultTitle := "Instagram Content"
  const DefaultAuthor := "Instagram User"
  const UnknownId := "unknown-id"
  const SourceDomain := "instagram.com"

  /** A payload with every field absent. */
  const EmptyPayload := Payload(None, None, None, None, None, None, None, None, None, None, None, None, None, None)

  /** The nested `data` object when there is one, else the body itself: one
      level of nesting is removed. */
  function Unwrap(p: Payload): Payload {
    if p.data.Some? then p.data.value else p
  }

  /** The entry's own type tag when it is non-empty; otherwise `video` for
      the extension `mp4` and `image` for anything else. */
  function ItemType(m: RawMedia): string {
    if Truthy(m.mediaType) then m.mediaType.value
    else if m.extension == Some("mp4") then "video"
    else "image"
  }

  function ToItem(m: RawMedia, dataThumbnail: Option<string>): MediaItem {
    MediaItem(
      m.url,
      ItemType(m),
      OrDefault(Or(m.thumbnail, dataThumbnail), ""),
      m.extension,
      Or(m.quality, m.resolution))
  }

  /** The mapped media list: one item per entry, in the provider's order. */
  function MapMedias(raw: seq<RawMedia>, dataThumbnail: Option<string>): (items: seq<MediaItem>)
    ensures |items| == |raw|
    ensures forall i :: 0 <= i < |raw| ==> items[i].url == raw[i].url && items[i].extension == raw[i].extension
    ensures forall i :: 0 <= i < |raw| && Truthy(raw[i].mediaType) ==> items[i].mediaType == raw[i].mediaType.value
    ensures forall i :: 0 <= i < |raw| && !Truthy(raw[i].mediaType) ==>
              (items[i].mediaType == "video" <==> raw[i].extension == Some("mp4")) &&
              (items[i].mediaType == "video" || items[i].mediaType == "image")
    ensures forall i :: 0 <= i < |raw| && Truthy(raw[i].quality) ==> items[i].quality == raw[i].quality
    ensures forall i :: 0 <= i < |raw| && !Truthy(raw[i].quality) ==> items[i].quality == raw[i].resolution
    ensures forall i :: 0 <= i < |raw| ==>
              items[i].thumbnail == (if Truthy(raw[i].thumbnail) then raw[i].thumbnail.value
                                     else if Truthy(dataThumbnail) then dataThumbnail.value else "")
  {
    seq(|raw|, i requires 0 <= i < |raw| => ToItem(raw[i], dataThumbnail))
  }

  /** The mapped items, empty when `data.medias` is not an array. */
  function ItemsOf(d: Payload): seq<MediaItem> {
    if d.medias.Some? then MapMedias(d.medias.value, d.thumbnail) else []
  }

  /** The position of the first item of type `t`, if any. */
  function FindType(items: seq<MediaItem>, t: string): (k: Option<nat>)
    ensures k.Some? ==> k.value < |items| && items[k.value].mediaType == t
    ensures k.Some? ==> forall j :: 0 <= j < k.value ==> items[j].mediaType != t
    ensures k.None? ==> forall j :: 0 <= j < |items| ==> items[j].mediaType != t
    decreases |items|
  {
    if items == [] then None
    else if items[0].mediaType == t then Some(0)
    else
      match FindType(items[1..], t)
      case None => None
      case Some(k) => Some(k + 1)
  }

  /** The first video, else the first image, else the first item. */
  function BestMedia(items: seq<MediaItem>): (k: nat)
    requires |items| > 0
    ensures k < |items|
  {
    match FindType(items, "video")
    case Some(k) => k
    case None =>
      match FindType(items, "image")
      case Some(k) => k
      case None => 0
  }

  /** The first non-empty of the download URL, the video URL and the media
      field. */
  function DirectUrl(d: Payload): Option<string> {
    Or(Or(d.downloadUrl, d.videoUrl), d.media)
  }

  /** The primary URL ladder; a falsy answer means no rule applied. */
  function PrimaryUrl(d: Payload, items: seq<MediaItem>): Option<string> {
    var direct := DirectUrl(d);
    var picked := if !Truthy(direct) && |items| > 0 then items[BestMedia(items)].url else direct;
    if !Truthy(picked) && Truthy(d.url) && !Contains(d.url.value, SourceDomain) then d.url else picked
  }

  predicate IsNotAudio(m: MediaItem) {
    m.mediaType != "audio"
  }

  /** A collection when the provider tagged the post `multiple` and more than
      one item is not audio; otherwise a video when some item is a video, and
      an image when none is. */
  function KindOf(typeTag: Option<string>, items: seq<MediaItem>): Kind {
    if typeTag == Some("multiple") && |Filter(items, IsNotAudio)| > 1 then Multiple
    else if exists m :: m in items && m.mediaType == "video" then Video
    else Image
  }

  /** The author field, else the user name, else the owner's user name when
      there is an owner (possibly absent), else the default author. */
  function AuthorOf(d: Payload): Option<string> {
    if Truthy(d.author) then d.author
    else if Truthy(d.username) then d.username
    else if d.owner.Some? then d.owner.value.username
    else Some(DefaultAuthor)
  }

  /** The provider's id, else the identifier in the requested link, else the
      placeholder id. */
  function IdOf(d: Payload, link: string): string {
    if Truthy(d.id) then d.id.value
    else
      match InstagramValidator.GetInstagramVideoId(link)
      case Some(v) => v
      case None => UnknownId
  }

  /** The thumbnail field, else the thumbnail URL field, else the first item's
      thumbnail, else the empty string. */
  function ThumbnailOf(d: Payload, items: seq<MediaItem>): string {
    if Truthy(d.thumbnail) then d.thumbnail.value
    else if Truthy(d.thumbnailUrl) then d.thumbnailUrl.value
    else if |items| > 0 then items[0].thumbnail
    else ""
  }

  /** Normalisation of one provider body for the requested `link`. */
  function Normalize(p: Payload, link: string): (r: Result<InstagramData, string>)
    ensures r.Failure? ==> r.error == NoDownloadUrl
    ensures r.Success? ==> r.value.url != "" && r.value.id != "" && r.value.title != ""
    ensures r.Success? ==> r.value.medias == ItemsOf(Unwrap(p))
  {
    var d := Unwrap(p);
    var items := ItemsOf(d);
    var primary := PrimaryUrl(d, items);
    if !Truthy(primary) then Failure(NoDownloadUrl)
    else
      Success(InstagramData(
        IdOf(d, link),
        primary.value,
        ThumbnailOf(d, items),
        OrDefault(d.title, DefaultTitle),
        AuthorOf(d),
        KindOf(d.typeTag, items),
        items))
  }

  // ----- Properties -----

  /** Only one level is unwrapped: with a nested object the outer fields and
      the nested object's own `data` are ignored; without one the outer fields
      are used. */
  lemma UnwrapOneLevel(p: Payload, inner: Payload, link: string)
    requires p.data == Some(inner)
    ensures Normalize(p, link) == Normalize(inner.(data := None), link)
    ensures Normalize(p, link) == Normalize(p.(data := Some(inner.(data := None))), link)
  {
    var flat := inner.(data := None);
    assert Unwrap(p) == inner && Unwrap(flat) == flat;
    assert ItemsOf(inner) == ItemsOf(flat);
    var items := ItemsOf(inner);
    assert PrimaryUrl(inner, items) == PrimaryUrl(flat, items);
    assert IdOf(inner, link) == IdOf(flat, link);
    assert ThumbnailOf(inner, items) == ThumbnailOf(flat, items);
    assert AuthorOf(inner) == AuthorOf(flat);
  }

  /** The primary URL ladder, stated against the positions of the mapped
      items: the direct fields in order, then the first video, else the first
      image, else the first item, then `data.url` unless it points back at
      Instagram. */
  lemma PrimaryUrlPrecedence(p: Payload, link: string)
    ensures var d := Unwrap(p);
            Truthy(d.downloadUrl) ==> Normalize(p, link).Success? && Normalize(p, link).value.url == d.downloadUrl.value
    ensures var d := Unwrap(p);
            !Truthy(d.downloadUrl) && Truthy(d.videoUrl) ==>
              Normalize(p, link).Success? && Normalize(p, link).value.url == d.videoUrl.value
    ensures var d := Unwrap(p);
            !Truthy(d.downloadUrl) && !Truthy(d.videoUrl) && Truthy(d.media) ==>
              Normalize(p, link).Success? && Normalize(p, link).value.url == d.media.value
    ensures var d := Unwrap(p); var items := ItemsOf(d);
            forall k :: 0 <= k < |items| && !Truthy(DirectUrl(d)) && items[k].mediaType == "video" &&
                        (forall j :: 0 <= j < k ==> items[j].mediaType != "video") && Truthy(items[k].url) ==>
              Normalize(p, link).Success? && Normalize(p, link).value.url == items[k].url.value
    ensures var d := Unwrap(p); var items := ItemsOf(d);
            forall k :: 0 <= k < |items| && !Truthy(DirectUrl(d)) && items[k].mediaType == "image" &&
                        (forall j :: 0 <= j < |items| ==> items[j].mediaType != "video") &&
                        (forall j :: 0 <= j < k ==> items[j].mediaType != "image") && Truthy(items[k].url) ==>
              Normalize(p, link).Success? && Normalize(p, link).value.url == items[k].url.value
    ensures var d := Unwrap(p); var items := ItemsOf(d);
            !Truthy(DirectUrl(d)) && |items| > 0 && Truthy(items[0].url) &&
            (forall j :: 0 <= j < |items| ==> items[j].mediaType != "video" && items[j].mediaType != "image") ==>
              Normalize(p, link).Success? && Normalize(p, link).value.url == items[0].url.value
    ensures var d := Unwrap(p); var items := ItemsOf(d);
            !Truthy(DirectUrl(d)) && (|items| == 0 || !Truthy(items[BestMedia(items)].url)) &&
            Truthy(d.url) && !Contains(d.url.value, SourceDomain) ==>
              Normalize(p, link).Success? && Normalize(p, link).value.url == d.url.value
  {
    var d := Unwrap(p);
    var items := ItemsOf(d);
    forall k | 0 <= k < |items| && !Truthy(DirectUrl(d)) && items[k].mediaType == "video" &&
               (forall j :: 0 <= j < k ==> items[j].mediaType != "video") && Truthy(items[k].url)
      ensures Normalize(p, link).Success? && Normalize(p, link).value.url == items[k].url.value
    {
      FirstFound(items, "video", k);
    }
    forall k | 0 <= k < |items| && !Truthy(DirectUrl(d)) && items[k].mediaType == "image" &&
               (forall j :: 0 <= j < |items| ==> items[j].mediaType != "video") &&
               (forall j :: 0 <= j < k ==> items[j].mediaType != "image") && Truthy(items[k].url)
      ensures Normalize(p, link).Success? && Normalize(p, link).value.url == items[k].url.value
    {
      FirstFound(items, "image", k);
    }
  }

  /** `find` returns the first position holding the type. */
  lemma FirstFound(items: seq<MediaItem>, t: string, k: nat)
    requires k < |items| && items[k].mediaType == t
    requires forall j :: 0 <= j < k ==> items[j].mediaType != t
    ensures FindType(items, t) == Some(k)
  {
  }

  /** Normalisation fails exactly when no rule of the ladder yields a
      non-empty URL: no direct field, the chosen item has no URL (or there is
      no item), and `data.url` is missing or mentions `instagram.com`. */
  lemma NormalizeFailsExactly(p: Payload, link: string)
    ensures var d := Unwrap(p); var items := ItemsOf(d);
            Normalize(p, link).Failure? <==>
              !Truthy(DirectUrl(d)) &&
              (|items| == 0 || !Truthy(items[BestMedia(items)].url)) &&
              (!Truthy(d.url) || Contains(d.url.value, SourceDomain))
  {
  }

  /** The record's type: `multiple` exactly when the provider tagged the post
      `multiple` and two positions hold non-audio items; otherwise `video`
      exactly when some item is a video. */
  lemma KindRule(p: Payload, link: string)
    requires Normalize(p, link).Success?
    ensures var d := Unwrap(p); var items := ItemsOf(d); var kind := Normalize(p, link).value.kind;
            var collection := d.typeTag == Some("multiple") &&
                              exists i, j :: 0 <= i < j < |items| && IsNotAudio(items[i]) && IsNotAudio(items[j]);
            (kind == Multiple <==> collection) &&
            (kind == Video <==> !collection && exists i :: 0 <= i < |items| && items[i].mediaType == "video")
  {
    var items := ItemsOf(Unwrap(p));
    FilterAtLeastTwo(items, IsNotAudio);
    if exists i :: 0 <= i < |items| && items[i].mediaType == "video" {
      var i :| 0 <= i < |items| && items[i].mediaType == "video";
      assert items[i] in items;
    }
  }

  /** The fallbacks for the descriptive fields. */
  lemma Fallbacks(p: Payload, link: string)
    requires Normalize(p, link).Success?
    ensures var d := Unwrap(p); var r := Normalize(p, link).value;
            (Truthy(d.title) ==> r.title == d.title.value) &&
            (!Truthy(d.title) ==> r.title == DefaultTitle)
    ensures var d := Unwrap(p); var r := Normalize(p, link).value;
            (Truthy(d.author) ==> r.author == d.author) &&
            (!Truthy(d.author) && Truthy(d.username) ==> r.author == d.username) &&
            (!Truthy(d.author) && !Truthy(d.username) && d.owner.Some? ==> r.author == d.owner.value.username) &&
            (r.author == Some(DefaultAuthor) <==>
               (d.author == Some(DefaultAuthor) || (!Truthy(d.author) && d.username == Some(DefaultAuthor)) ||
                (!Truthy(d.author) && !Truthy(d.username) &&
                 (d.owner.None? || d.owner.value.username == Some(DefaultAuthor)))))
    ensures var d := Unwrap(p); var r := Normalize(p, link).value;
            (Truthy(d.thumbnail) ==> r.thumbnail == d.thumbnail.value) &&
            (!Truthy(d.thumbnail) && Truthy(d.thumbnailUrl) ==> r.thumbnail == d.thumbnailUrl.value) &&
            (!Truthy(d.thumbnail) && !Truthy(d.thumbnailUrl) && |r.medias| == 0 ==> r.thumbnail == "") &&
            (!Truthy(d.thumbnail) && !Truthy(d.thumbnailUrl) && |r.medias| > 0 ==> r.thumbnail == r.medias[0].thumbnail)
  {
  }

  /** The identifier falls back from the provider's id to the link's own
      identifier; only a link the pattern does not match gets "unknown-id". */
  lemma IdFallback(p: Payload, link: string, hostOf: string -> Option<string>)
    requires Normalize(p, link).Success?
    ensures var d := Unwrap(p); var r := Normalize(p, link).value;
            (Truthy(d.id) ==> r.id == d.id.value) &&
            (!Truthy(d.id) && InstagramValidator.IsValidInstagramUrl(link, hostOf) ==>
               r.id == InstagramValidator.GetInstagramVideoId(link).value) &&
            (!Truthy(d.id) && InstagramValidator.GetInstagramVideoId(link).None? ==> r.id == UnknownId)
  {
    if InstagramValidator.IsValidInstagramUrl(link, hostOf) {
      InstagramValidator.ValidHasId(link, hostOf);
    }
  }

  /** Two items, an image `a` then a video `b`, and no direct URL: the video
      is chosen. */
  lemma VideoPreferredOverImage(link: string)
    ensures var raw := [RawMedia(Some("a"), Some("image"), None, None, None, None),
                        RawMedia(Some("b"), Some("video"), None, None, None, None)];
            Normalize(EmptyPayload.(medias := Some(raw)), link) ==
              Success(InstagramData(IdOf(EmptyPayload, link), "b", "", DefaultTitle, Some(DefaultAuthor), Video,
                                    MapMedias(raw, None)))
  {
    var raw := [RawMedia(Some("a"), Some("image"), None, None, None, None),
                RawMedia(Some("b"), Some("video"), None, None, None, None)];
    var items := MapMedias(raw, None);
    assert items[1].mediaType == "video" && items[0].mediaType == "image";
    assert FindType(items, "video") == Some(1);
    assert items[1] in items;
  }

  /** A nested body tagged `multiple` with two images: a collection of two
      items whose primary URL is the first image. */
  lemma CollectionOfTwoImages(link: string)
    ensures var raw := [RawMedia(Some("a"), Some("image"), None, None, None, None),
                        RawMedia(Some("b"), Some("image"), None, None, None, None)];
            var r := Normalize(EmptyPayload.(data := Some(EmptyPayload.(medias := Some(raw), typeTag := Some("multiple")))), link);
            r.Success? && r.value.kind == Multiple && |r.value.medias| == 2 && r.value.url == "a"
  {
    var raw := [RawMedia(Some("a"), Some("image"), None, None, None, None),
                RawMedia(Some("b"), Some("image"), None, None, None, None)];
    var items := MapMedias(raw, None);
    assert items[0].mediaType == "image" && items[1].mediaType == "image";
    assert FindType(items, "video") == None;
    assert FindType(items, "image") == Some(0);
    Seqs.FilterAtLeastTwo(items, IsNotAudio);
    assert IsNotAudio(items[0]) && IsNotAudio(items[1]);
  }
}
