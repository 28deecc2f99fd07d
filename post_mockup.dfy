/** The Instagram Post preview (`InstagramPostMockup`): its own copy of the
    style table, and the text a post preview shows. */
module InstagramPostMockup {
  import opened Text
  import opened Themes
  import Story = InstagramStoryMockup

  /** The `styles` object literal, written out again in this component. */
  function Styles(): map<string, Story.StyleClasses> {
    map[
      "minimal" := Story.StyleClasses("from-white to-gray-100", "text-gray-900", "text-gray-600", "bg-white/95", "bg-gray-100"),
      "elegant" := Story.StyleClasses("from-gray-900 to-black", "text-white", "text-gray-300", "bg-black/20", "bg-white/10"),
      "bold" := Story.StyleClasses("from-pink-500 to-purple-600", "text-white", "text-pink-100", "bg-white/20", "bg-white/20"),
      "playful" := Story.StyleClasses("from-orange-400 to-pink-500", "text-white", "text-orange-100", "bg-white/20", "bg-white/20")
    ]
  }

  /** `styles[style] || styles.elegant`. */
  function GetStyleClasses(style: string): (r: Story.StyleClasses)
    ensures IsKnownStyle(style) ==> r == Styles()[style]
    ensures !IsKnownStyle(style) ==> r == Styles()["elegant"]
    ensures r in Styles().Values
  {
    var styles := Styles();
    if style in styles then styles[style] else styles["elegant"]
  }

  /** The post preview's table is the story preview's table, key for key, so
      both previews theme every style keyword identically. */
  lemma SameTableAsStory(style: string)
    ensures GetStyleClasses(style) == Story.GetStyleClasses(style)
    ensures Styles() == Story.Styles()
  {
  }

  /** The merged record a generator page passes as `postData`. */
  datatype PostData = PostData(
    restaurantName: string,
    location: string,
    image: string,
    menuItem: string,
    description: string,
    price: string,
    caption: string,
    hashtags: seq<string>,
    style: string)

  /** What the post preview shows. `captionName` is the bold name in front of
      the caption. */
  datatype PostView = PostView(
    theme: Story.StyleClasses,
    initial: string,
    name: string,
    location: string,
    image: Option<string>,
    title: string,
    description: string,
    priceLine: Option<string>,
    captionName: string,
    caption: string,
    hashtags: seq<string>)

  const DescriptionLimit: nat := 60

  const ShownHashtags: nat := 4

  /** The preview of a post: theme, header, picture with its overlay, the
      caption line and the leading hashtags. */
  function Render(d: PostData): (v: PostView)
    ensures v.theme == GetStyleClasses(d.style)
    ensures v.initial == Story.Initial(d.restaurantName)
    ensures v.name != "" && v.captionName == v.name
    ensures d.restaurantName != "" ==> v.name == d.restaurantName
    ensures d.restaurantName == "" ==> v.name == "Restaurant"
    ensures v.location != "" && (d.location != "" ==> v.location == d.location)
    ensures d.location == "" ==> v.location == "Location"
    ensures v.image.Some? <==> d.image != ""
    ensures v.image.Some? ==> v.image.value == d.image
    ensures v.title == d.menuItem && v.caption == d.caption
    ensures |v.description| <= DescriptionLimit + 3
    ensures |d.description| <= DescriptionLimit ==> v.description == d.description
    ensures |d.description| > DescriptionLimit ==>
              |v.description| == DescriptionLimit + 3
              && v.description[..DescriptionLimit] == d.description[..DescriptionLimit]
              && v.description[DescriptionLimit..] == "..."
    ensures v.priceLine.Some? <==> d.price != ""
    ensures v.priceLine.Some? ==> v.priceLine.value == d.price
    ensures v.hashtags <= d.hashtags
    ensures |v.hashtags| == Min(ShownHashtags, |d.hashtags|)
  {
    var name := OrElse(d.restaurantName, "Restaurant");
    PostView(
      GetStyleClasses(d.style),
      Story.Initial(d.restaurantName),
      name,
      OrElse(d.location, "Location"),
      if d.image != "" then Some(d.image) else None,
      d.menuItem,
      Truncate(d.description, DescriptionLimit),
      if d.price != "" then Some(d.price) else None,
      name,
      d.caption,
      Take(d.hashtags, ShownHashtags))
  }
}
