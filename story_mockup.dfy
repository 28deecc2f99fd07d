/** The Instagram Story preview (`InstagramStoryMockup`): a style lookup table
    with an "elegant" default, and the text the preview shows for a story,
    with its truncation, prefix and fallback rules. */
module InstagramStoryMockup {
  import opened Text
  import opened Themes

  /** The Tailwind class names one style contributes to a preview. */
  datatype StyleClasses = StyleClasses(
    background: string,
    textColor: string,
    accentColor: string,
    cardBg: string,
    imageBg: string)

  const Minimal := StyleClasses("from-white to-gray-100", "text-gray-900", "text-gray-600", "bg-white/95", "bg-gray-100")
  const Elegant := StyleClasses("from-gray-900 to-black", "text-white", "text-gray-300", "bg-black/20", "bg-white/10")
  const Bold := StyleClasses("from-pink-500 to-purple-600", "text-white", "text-pink-100", "bg-white/20", "bg-white/20")
  const Playful := StyleClasses("from-orange-400 to-pink-500", "text-white", "text-orange-100", "bg-white/20", "bg-white/20")

  /** The `styles` object literal. */
  function Styles(): map<string, StyleClasses> {
    map["minimal" := Minimal, "elegant" := Elegant, "bold" := Bold, "playful" := Playful]
  }

  /** `styles[style] || styles.elegant`: total, one bundle per known style,
      the elegant bundle for every other key. */
  function GetStyleClasses(style: string): (r: StyleClasses)
    ensures IsKnownStyle(style) ==> r == Styles()[style]
    ensures !IsKnownStyle(style) ==> r == Styles()["elegant"]
    ensures r in Styles().Values
  {
    var styles := Styles();
    if style in styles then styles[style] else styles["elegant"]
  }

  /** The table's keys are exactly the four style keywords. */
  lemma StylesKeys(style: string)
    ensures style in Styles() <==> IsKnownStyle(style)
  {
  }

  /** Every unknown key resolves to the same bundle as "elegant". */
  lemma UnknownStyleIsElegant(style: string)
    requires !IsKnownStyle(style)
    ensures GetStyleClasses(style) == GetStyleClasses("elegant")
  {
  }

  /** The four bundles are distinct, so the bundle identifies the known style
      it came from. */
  lemma StyleBundlesDistinct(a: string, b: string)
    requires IsKnownStyle(a) && IsKnownStyle(b)
    requires GetStyleClasses(a) == GetStyleClasses(b)
    ensures a == b
  {
    assert Minimal.background[5] == 'w';
    assert Elegant.background[5] == 'g';
    assert Bold.background[5] == 'p';
    assert Playful.background[5] == 'o';
  }

  /** The merged record the story generator passes as `storyData`. */
  datatype StoryData = StoryData(
    menuItem: string,
    description: string,
    price: string,
    restaurantName: string,
    location: string,
    image: string,
    tagline: string,
    caption: string,
    hashtags: seq<string>,
    style: string,
    colors: seq<string>)

  /** What the story preview shows. `image` is None when the camera
      placeholder is drawn instead of a picture; `pricePill` is None when no
      price pill is drawn. */
  datatype StoryView = StoryView(
    theme: StyleClasses,
    initial: string,
    name: string,
    location: string,
    image: Option<string>,
    title: string,
    description: string,
    pricePill: Option<string>,
    tagline: string,
    hashtags: seq<string>)

  /** Longest description shown before it is cut. */
  const DescriptionLimit: nat := 80

  /** Number of hashtags shown. */
  const ShownHashtags: nat := 3

  /** `name?.charAt(0) || "R"`. */
  function Initial(name: string): (r: string)
    ensures |r| == 1
    ensures name != "" ==> r[0] == name[0]
    ensures name == "" ==> r == "R"
  {
    OrElse(if name == "" then "" else [name[0]], "R")
  }

  /** The preview of a story: theme, header, picture, description, price
      pill, tagline and the leading hashtags. */
  function Render(d: StoryData): (v: StoryView)
    ensures v.theme == GetStyleClasses(d.style)
    ensures v.initial == Initial(d.restaurantName)
    ensures v.name != "" && (d.restaurantName != "" ==> v.name == d.restaurantName)
    ensures d.restaurantName == "" ==> v.name == "Restaurant"
    ensures v.location != "" && (d.location != "" ==> v.location == d.location)
    ensures d.location == "" ==> v.location == "Location"
    ensures v.image.Some? <==> d.image != ""
    ensures v.image.Some? ==> v.image.value == d.image
    ensures v.title == d.menuItem && v.tagline == d.tagline
    ensures |v.description| <= DescriptionLimit + 3
    ensures |d.description| <= DescriptionLimit ==> v.description == d.description
    ensures |d.description| > DescriptionLimit ==>
              |v.description| == DescriptionLimit + 3
              && v.description[..DescriptionLimit] == d.description[..DescriptionLimit]
              && v.description[DescriptionLimit..] == "..."
    ensures v.pricePill.Some? <==> d.price != ""
    ensures v.pricePill.Some? ==> v.pricePill.value == d.price
    ensures v.hashtags <= d.hashtags
    ensures |v.hashtags| == Min(ShownHashtags, |d.hashtags|)
  {
    StoryView(
      GetStyleClasses(d.style),
      Initial(d.restaurantName),
      OrElse(d.restaurantName, "Restaurant"),
      OrElse(d.location, "Location"),
      if d.image != "" then Some(d.image) else None,
      d.menuItem,
      Truncate(d.description, DescriptionLimit),
      if d.price != "" then Some(d.price) else None,
      d.tagline,
      Take(d.hashtags, ShownHashtags))
  }
}
