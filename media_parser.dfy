/** src/MediaParser.php: one raw Graph API media item to an optional normalised record. */
module Parser {
  import opened Wrappers
  import opened Text
  import opened Media

  /** A carousel child as the API sends it (`children.data[*]`). */
  datatype RawChild = RawChild(mediaType: string, mediaUrl: string, id: string, thumbnailUrl: Option<string>)

  /**
   * One raw media item. Optional keys are `None` when absent or null;
   * `children` is the carousel's `children.data` list.
   */
  datatype RawMedia = RawMedia(
    mediaType: string, mediaUrl: string, id: string, caption: Option<string>,
    permalink: string, thumbnailUrl: Option<string>, timestamp: Option<string>,
    children: seq<RawChild>)

  /** The array parseItem returns. */
  datatype ParsedMedia = ParsedMedia(
    kind: string, url: string, id: string, caption: Option<string>, permalink: string,
    thumbnailUrl: string, timestamp: string, isCarousel: bool, children: seq<Child>)

  /** The carousel filter: keep a child when it is an image or videos are not ignored. */
  predicate Survives(child: RawChild, ignoreVideo: bool) {
    child.mediaType == "IMAGE" || !ignoreVideo
  }

  /** `t` keeps the elements of `s` in their order (a subsequence). */
  predicate IsSubsequence<T(==)>(t: seq<T>, s: seq<T>) {
    if t == [] then true
    else if s == [] then false
    else (t[0] == s[0] && IsSubsequence(t[1..], s[1..])) || IsSubsequence(t, s[1..])
  }

  /** Index of the first surviving child. */
  predicate FirstSurvivorAt(children: seq<RawChild>, ignoreVideo: bool, i: int) {
    && 0 <= i < |children|
    && Survives(children[i], ignoreVideo)
    && forall j :: 0 <= j < i ==> !Survives(children[j], ignoreVideo)
  }

  /** `collect(children)->filter(...)`. */
  function FilterChildren(children: seq<RawChild>, ignoreVideo: bool): (r: seq<RawChild>)
    ensures |r| <= |children|
  {
    if children == [] then []
    else if Survives(children[0], ignoreVideo) then [children[0]] + FilterChildren(children[1..], ignoreVideo)
    else FilterChildren(children[1..], ignoreVideo)
  }

  /** The filter keeps exactly the surviving children. */
  lemma {:induction false} FilterKeepsSurvivors(children: seq<RawChild>, ignoreVideo: bool)
    ensures forall c :: c in FilterChildren(children, ignoreVideo) <==> c in children && Survives(c, ignoreVideo)
  {
    if children != [] {
      FilterKeepsSurvivors(children[1..], ignoreVideo);
      assert forall c :: c in children <==> c == children[0] || c in children[1..];
    }
  }

  /** The filter keeps every copy of a surviving child and no copy of any other. */
  lemma {:induction false} FilterKeepsMultiplicity(children: seq<RawChild>, ignoreVideo: bool)
    ensures forall c :: multiset(FilterChildren(children, ignoreVideo))[c] ==
                        (if Survives(c, ignoreVideo) then multiset(children)[c] else 0)
  {
    if children != [] {
      FilterKeepsMultiplicity(children[1..], ignoreVideo);
      assert children == [children[0]] + children[1..];
      assert multiset(children) == multiset{children[0]} + multiset(children[1..]);
    }
  }

  /** The filter keeps the children's order. */
  lemma {:induction false} FilterKeepsOrder(children: seq<RawChild>, ignoreVideo: bool)
    ensures IsSubsequence(FilterChildren(children, ignoreVideo), children)
  {
    if children != [] {
      FilterKeepsOrder(children[1..], ignoreVideo);
    }
  }

  /** With videos kept, the filter keeps every child. */
  lemma {:induction false} FilterKeepsAllWithVideos(children: seq<RawChild>)
    ensures FilterChildren(children, false) == children
  {
    if children != [] {
      FilterKeepsAllWithVideos(children[1..]);
    }
  }

  /** The filter is empty exactly when no child survives; otherwise it starts with the first survivor. */
  lemma {:induction false} FilterFirst(children: seq<RawChild>, ignoreVideo: bool)
    ensures FilterChildren(children, ignoreVideo) == [] <==>
      forall j :: 0 <= j < |children| ==> !Survives(children[j], ignoreVideo)
    ensures FilterChildren(children, ignoreVideo) != [] ==>
      exists i :: FirstSurvivorAt(children, ignoreVideo, i) && FilterChildren(children, ignoreVideo)[0] == children[i]
  {
    if children != [] {
      FilterFirst(children[1..], ignoreVideo);
      if Survives(children[0], ignoreVideo) {
        assert FirstSurvivorAt(children, ignoreVideo, 0);
      } else {
        var rest := FilterChildren(children[1..], ignoreVideo);
        assert (forall j :: 0 <= j < |children| ==> !Survives(children[j], ignoreVideo)) <==>
          (forall j :: 0 <= j < |children[1..]| ==> !Survives(children[1..][j], ignoreVideo)) by {
          assert forall j :: 0 < j < |children| ==> children[j] == children[1..][j - 1];
        }
        if rest != [] {
          var k :| FirstSurvivorAt(children[1..], ignoreVideo, k) && rest[0] == children[1..][k];
          assert FirstSurvivorAt(children, ignoreVideo, k + 1);
        }
      }
    }
  }

  /** Each child reduced to `{type: lower-cased, url, id}`. */
  function ReduceChildren(children: seq<RawChild>): (r: seq<Child>)
    ensures |r| == |children|
    ensures forall i :: 0 <= i < |children| ==>
      r[i] == Child(ToLower(children[i].mediaType), children[i].mediaUrl, children[i].id)
  {
    if children == [] then []
    else [Child(ToLower(children[0].mediaType), children[0].mediaUrl, children[0].id)] + ReduceChildren(children[1..])
  }

  function ParseAsImage(media: RawMedia): (r: ParsedMedia)
    ensures r.kind == "image" && r.url == media.mediaUrl && r.thumbnailUrl == media.mediaUrl
    ensures !r.isCarousel && r.children == []
    ensures r.id == media.id && r.caption == media.caption && r.permalink == media.permalink
    ensures r.timestamp == media.timestamp.GetOr("")
  {
    ParsedMedia("image", media.mediaUrl, media.id, media.caption, media.permalink,
                media.mediaUrl, media.timestamp.GetOr(""), false, [])
  }

  function ParseAsVideo(media: RawMedia, ignoreVideo: bool): (r: Option<ParsedMedia>)
    ensures r.None? <==> ignoreVideo
    ensures r.Some? ==> r.value.kind == "video" && r.value.url == media.mediaUrl
    ensures r.Some? ==> r.value.thumbnailUrl == media.thumbnailUrl.GetOr("")
    ensures r.Some? ==> !r.value.isCarousel && r.value.children == []
    ensures r.Some? ==> r.value.id == media.id && r.value.caption == media.caption
    ensures r.Some? ==> r.value.permalink == media.permalink && r.value.timestamp == media.timestamp.GetOr("")
  {
    if ignoreVideo then None
    else Some(ParsedMedia("video", media.mediaUrl, media.id, media.caption, media.permalink,
                          media.thumbnailUrl.GetOr(""), media.timestamp.GetOr(""), false, []))
  }

  /** The carousel record built from a representative child and the surviving children. */
  function CarouselRecord(media: RawMedia, use: RawChild, survivors: seq<RawChild>): ParsedMedia {
    ParsedMedia(ToLower(use.mediaType), use.mediaUrl, media.id, media.caption, media.permalink,
                use.thumbnailUrl.GetOr(""), media.timestamp.GetOr(""), |survivors| > 0,
                ReduceChildren(survivors))
  }

  /**
   * The message of the error PHP 8 raises when an array offset is read from
   * null; Laravel's error handler turns that warning into an ErrorException.
   */
  const NullOffsetError := "Trying to access array offset on value of type null"

  /**
   * The carousel branch as it is written: the guard `!$children` tests a
   * Collection object, which PHP always treats as true, so the guard never
   * fires. With no surviving child, `first()` is null and the first read
   * from it, `$use['media_type']`, throws.
   */
  function ParseAsCarouselAsWritten(media: RawMedia, ignoreVideo: bool): (r: Result<ParsedMedia, string>)
    ensures r.Err? <==> forall j :: 0 <= j < |media.children| ==> !Survives(media.children[j], ignoreVideo)
    ensures r.Err? ==> r.error == NullOffsetError
    ensures r.Ok? ==> r.value.isCarousel
  {
    FilterFirst(media.children, ignoreVideo);
    var survivors := FilterChildren(media.children, ignoreVideo);
    if survivors == [] then Err(NullOffsetError)
    else Ok(CarouselRecord(media, survivors[0], survivors))
  }

  /** The carousel branch as intended: no surviving child means no record. */
  function ParseAsCarousel(media: RawMedia, ignoreVideo: bool): (r: Option<ParsedMedia>)
    ensures r.None? <==> forall j :: 0 <= j < |media.children| ==> !Survives(media.children[j], ignoreVideo)
    ensures r.Some? ==> r.value.isCarousel
    ensures r.Some? ==> r.value.children == ReduceChildren(FilterChildren(media.children, ignoreVideo))
    ensures r.Some? ==> exists i :: (
      && FirstSurvivorAt(media.children, ignoreVideo, i)
      && r.value.kind == ToLower(media.children[i].mediaType)
      && r.value.url == media.children[i].mediaUrl
      && r.value.thumbnailUrl == media.children[i].thumbnailUrl.GetOr(""))
    ensures r.Some? ==> r.value.id == media.id && r.value.caption == media.caption
    ensures r.Some? ==> r.value.permalink == media.permalink && r.value.timestamp == media.timestamp.GetOr("")
    ensures r.Some? ==> ParseAsCarouselAsWritten(media, ignoreVideo) == Ok(r.value)
    ensures r.None? ==> ParseAsCarouselAsWritten(media, ignoreVideo) == Err(NullOffsetError)
  {
    FilterFirst(media.children, ignoreVideo);
    var survivors := FilterChildren(media.children, ignoreVideo);
    if survivors == [] then None
    else Some(CarouselRecord(media, survivors[0], survivors))
  }

  /** An all-video carousel with videos ignored: the code as written throws instead of returning null. */
  lemma AllVideoCarouselAsWritten()
    ensures var media := RawMedia("CAROUSEL_ALBUM", "u", "1", None, "p", None, None,
                                  [RawChild("VIDEO", "v", "2", Some("t"))]);
      && ParseAsCarouselAsWritten(media, true) == Err(NullOffsetError)
      && ParseAsCarousel(media, true) == None
  {
    var media := RawMedia("CAROUSEL_ALBUM", "u", "1", None, "p", None, None,
                          [RawChild("VIDEO", "v", "2", Some("t"))]);
    assert FilterChildren(media.children, true) == [];
  }

  /** `parseItem($media, $ignore_video)`. */
  function ParseItem(media: RawMedia, ignoreVideo: bool := false): (r: Option<ParsedMedia>)
    ensures media.mediaType !in {"IMAGE", "VIDEO", "CAROUSEL_ALBUM"} ==> r.None?
    ensures media.mediaType == "IMAGE" ==> r == Some(ParseAsImage(media))
    ensures media.mediaType == "VIDEO" ==> r == ParseAsVideo(media, ignoreVideo)
    ensures media.mediaType == "CAROUSEL_ALBUM" ==> r == ParseAsCarousel(media, ignoreVideo)
  {
    match media.mediaType
    case "IMAGE" => Some(ParseAsImage(media))
    case "VIDEO" => ParseAsVideo(media, ignoreVideo)
    case "CAROUSEL_ALBUM" => ParseAsCarousel(media, ignoreVideo)
    case _ => None
  }

  /** Parent-provided fields are the same in every variant. */
  lemma ParentFieldsProvenance(media: RawMedia, ignoreVideo: bool)
    requires ParseItem(media, ignoreVideo).Some?
    ensures var p := ParseItem(media, ignoreVideo).value;
      && p.id == media.id && p.caption == media.caption
      && p.permalink == media.permalink && p.timestamp == media.timestamp.GetOr("")
  {
  }

  /** Videos ignored: every surviving carousel child is an image, so the record is an image one. */
  lemma {:induction false} IgnoredVideoCarouselIsImages(media: RawMedia)
    requires media.mediaType == "CAROUSEL_ALBUM"
    requires ParseItem(media, true).Some?
    ensures var p := ParseItem(media, true).value;
      && p.kind == "image"
      && forall k :: 0 <= k < |p.children| ==> p.children[k].kind == "image"
  {
    var survivors := FilterChildren(media.children, true);
    FilterKeepsSurvivors(media.children, true);
    assert ToLower("IMAGE") == "image";
    forall k | 0 <= k < |survivors| ensures survivors[k].mediaType == "IMAGE" {
      assert survivors[k] in survivors;
    }
  }
}
