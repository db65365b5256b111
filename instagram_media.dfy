/** The typed media record of src/InstagramMedia.php. */
module Media {

  const TypeImage: string := "image"
  const TypeVideo: string := "video"
  const TypeCarousel: string := "carousel"
  const TypeUnknown: string := "unknown"

  /** One reduced carousel child: its lower-cased type, url and id. */
  datatype Child = Child(kind: string, url: string, id: string)

  /** The PHP values an attribute array holds here. */
  datatype Attr = Null | Flag(b: bool) | Str(s: string) | Items(children: seq<Child>)

  /** A PHP associative array of attributes. */
  type Attributes = map<string, Attr>

  const StringKeys: set<string> := {"url", "id", "caption", "permalink", "thumbnail_url", "timestamp"}

  datatype InstagramMedia = InstagramMedia(
    kind: string, url: string, id: string, caption: string, permalink: string,
    thumbnailUrl: string, timestamp: string, children: seq<Child>)
  {
    predicate IsImage() { kind == TypeImage }
    predicate IsVideo() { kind == TypeVideo }
    predicate IsCarousel() { kind == TypeCarousel }
  }

  /** The typed string properties only take a string, null or a bool (coerced); an array is a TypeError. */
  predicate FitsString(attributes: Attributes, key: string) {
    key in attributes ==> !attributes[key].Items?
  }

  /** The typed `array $children` property takes an array or null. */
  predicate Fits(attributes: Attributes) {
    && (forall key :: key in StringKeys ==> FitsString(attributes, key))
    && ("children" in attributes ==> attributes["children"].Null? || attributes["children"].Items?)
  }

  /** `$attributes[key] ?? ''` assigned to a string property (bools coerce to "1" and ""). */
  function StringAttr(attributes: Attributes, key: string): (s: string)
    requires FitsString(attributes, key)
    ensures key !in attributes || attributes[key].Null? ==> s == ""
    ensures key in attributes && attributes[key].Str? ==> s == attributes[key].s
  {
    if key !in attributes then ""
    else match attributes[key]
      case Null => ""
      case Str(v) => v
      case Flag(b) => if b then "1" else ""
  }

  /** `new InstagramMedia($type, $attributes)`. */
  function New(kind: string, attributes: Attributes): (m: InstagramMedia)
    requires Fits(attributes)
    ensures m.kind == kind
    ensures m.url == StringAttr(attributes, "url") && m.id == StringAttr(attributes, "id")
    ensures m.caption == StringAttr(attributes, "caption") && m.permalink == StringAttr(attributes, "permalink")
    ensures m.thumbnailUrl == StringAttr(attributes, "thumbnail_url") && m.timestamp == StringAttr(attributes, "timestamp")
    ensures attributes == map[] ==>
      m == InstagramMedia(kind, "", "", "", "", "", "", [])
    ensures "children" in attributes && attributes["children"].Items? ==>
      m.children == attributes["children"].children
    ensures "children" !in attributes || attributes["children"].Null? ==> m.children == []
  {
    InstagramMedia(
      kind,
      StringAttr(attributes, "url"),
      StringAttr(attributes, "id"),
      StringAttr(attributes, "caption"),
      StringAttr(attributes, "permalink"),
      StringAttr(attributes, "thumbnail_url"),
      StringAttr(attributes, "timestamp"),
      if "children" in attributes && attributes["children"].Items? then attributes["children"].children else [])
  }

  function NewImage(attributes: Attributes): (m: InstagramMedia)
    requires Fits(attributes)
    ensures m.IsImage() && !m.IsVideo() && !m.IsCarousel()
    ensures m == New(TypeImage, attributes)
  {
    New(TypeImage, attributes)
  }

  function NewVideo(attributes: Attributes): (m: InstagramMedia)
    requires Fits(attributes)
    ensures m.IsVideo() && !m.IsImage() && !m.IsCarousel()
    ensures m == New(TypeVideo, attributes)
  {
    New(TypeVideo, attributes)
  }

  function NewCarousel(attributes: Attributes): (m: InstagramMedia)
    requires Fits(attributes)
    ensures m.IsCarousel() && !m.IsImage() && !m.IsVideo()
    ensures m == New(TypeCarousel, attributes)
  {
    New(TypeCarousel, attributes)
  }

  /** The three classification predicates exclude one another, and exactly one holds for a known type. */
  lemma ClassificationExclusive(m: InstagramMedia)
    ensures !(m.IsImage() && m.IsVideo()) && !(m.IsImage() && m.IsCarousel()) && !(m.IsVideo() && m.IsCarousel())
    ensures (m.IsImage() || m.IsVideo() || m.IsCarousel()) <==> m.kind in {TypeImage, TypeVideo, TypeCarousel}
    ensures m.kind == TypeUnknown ==> !m.IsImage() && !m.IsVideo() && !m.IsCarousel()
  {
  }

  /** `toArray()`: every stored field and the three classification flags. */
  function ToArray(m: InstagramMedia): (a: Attributes)
    ensures "is_carousel" in a && a["is_carousel"] == Flag(m.IsCarousel())
    ensures "is_image" in a && a["is_image"] == Flag(m.IsImage())
    ensures "is_video" in a && a["is_video"] == Flag(m.IsVideo())
    ensures "type" in a && a["type"] == Str(m.kind)
  {
    map[
      "type" := Str(m.kind),
      "url" := Str(m.url),
      "id" := Str(m.id),
      "caption" := Str(m.caption),
      "permalink" := Str(m.permalink),
      "thumbnail_url" := Str(m.thumbnailUrl),
      "timestamp" := Str(m.timestamp),
      "is_carousel" := Flag(m.IsCarousel()),
      "is_image" := Flag(m.IsImage()),
      "is_video" := Flag(m.IsVideo()),
      "children" := Items(m.children)
    ]
  }

  /** The array holds the stored fields, the type and the three flags, and nothing else. */
  lemma ToArrayKeys(m: InstagramMedia)
    ensures ToArray(m).Keys == StringKeys + {"type", "is_carousel", "is_image", "is_video", "children"}
  {
  }

  /** `new InstagramMedia($m->type, $m->toArray())` gives `$m` back. */
  lemma ToArrayRoundTrip(m: InstagramMedia)
    ensures Fits(ToArray(m)) && New(m.kind, ToArray(m)) == m
  {
    var a := ToArray(m);
    assert a["url"] == Str(m.url) && a["id"] == Str(m.id) && a["caption"] == Str(m.caption);
    assert a["permalink"] == Str(m.permalink) && a["thumbnail_url"] == Str(m.thumbnailUrl);
    assert a["timestamp"] == Str(m.timestamp) && a["children"] == Items(m.children);
    assert Fits(a);
  }
}
