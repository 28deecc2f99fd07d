/** The content templates that the single-item flows share: the QR-code
    page, the post generator and the story generator each define the same
    `generateTagline`, `generateCaption` and `generateHashtags`. A random
    choice `list[Math.floor(Math.random() * list.length)]` is modelled as a
    caller-supplied index `pick` into the list. */
module ItemContent {
  import opened Text
  import opened Themes

  /** The `taglines` object literal: three candidates per style. */
  function TaglineTable(menuItem: string): map<string, seq<string>> {
    map[
      "minimal" := [menuItem, "Simple. Delicious.", "Taste the difference"],
      "elegant" := ["Exquisite " + menuItem, "Culinary perfection", "A masterpiece on your plate"],
      "bold" := ["🔥 " + menuItem + " 🔥", "Bold flavors await!", "This will blow your mind!"],
      "playful" := ["✨ " + menuItem + " magic ✨", "Yum alert! 🚨", "Foodie heaven incoming!"]
    ]
  }

  const TaglineCount: nat := 3

  /** The table has an entry for exactly the known styles, each of three
      candidates. */
  lemma TaglineTableShape(menuItem: string, style: string)
    ensures style in TaglineTable(menuItem) <==> IsKnownStyle(style)
    ensures style in TaglineTable(menuItem) ==> |TaglineTable(menuItem)[style]| == TaglineCount
  {
  }

  /** `generateTagline(menuItem, style)`: a candidate of the style's list,
      of the elegant list when the style is unknown. The first candidate of
      every list names the menu item verbatim. */
  function GenerateTagline(menuItem: string, style: string, pick: nat): (r: string)
    requires pick < TaglineCount
    ensures IsKnownStyle(style) ==> r in TaglineTable(menuItem)[style]
    ensures !IsKnownStyle(style) ==> r in TaglineTable(menuItem)["elegant"]
    ensures pick == 0 ==> Contains(r, menuItem)
  {
    var table := TaglineTable(menuItem);
    var candidates := if style in table then table[style] else table["elegant"];
    FirstTaglineNamesItem(menuItem, style);
    candidates[pick]
  }

  lemma FirstTaglineNamesItem(menuItem: string, style: string)
    ensures Contains(TaglineTable(menuItem)[if IsKnownStyle(style) then style else "elegant"][0], menuItem)
  {
    if style == "minimal" {
      ContainsMiddle("", menuItem, "");
      assert "" + menuItem + "" == menuItem;
    } else if style == "bold" {
      ContainsMiddle("🔥 ", menuItem, " 🔥");
    } else if style == "playful" {
      ContainsMiddle("✨ ", menuItem, " magic ✨");
    } else {
      ContainsMiddle("Exquisite ", menuItem, "");
      assert "Exquisite " + menuItem + "" == "Exquisite " + menuItem;
    }
  }

  /** For the minimal style the first candidate is the menu item name itself. */
  lemma MinimalFirstTaglineIsName(menuItem: string)
    ensures GenerateTagline(menuItem, "minimal", 0) == menuItem
  {
  }

  /** An unknown style gives exactly the tagline "elegant" gives. */
  lemma UnknownStyleTaglineIsElegant(menuItem: string, style: string, pick: nat)
    requires pick < TaglineCount && !IsKnownStyle(style)
    ensures GenerateTagline(menuItem, style, pick) == GenerateTagline(menuItem, "elegant", pick)
  {
  }

  /** The `baseCaptions` templates. */
  function Captions(menuItem: string, restaurantName: string): seq<string> {
    [
      "Just tried the most amazing " + menuItem + " at " + restaurantName + "! 🤤",
      "This " + menuItem + " is absolutely incredible! " + restaurantName + " never disappoints ✨",
      "Foodie alert! The " + menuItem + " at " + restaurantName + " is a must-try! 🍽️",
      "Can't stop thinking about this " + menuItem + " from " + restaurantName + "! 😍"
    ]
  }

  const CaptionCount: nat := 4

  /** `generateCaption`: one of the four templates, each naming the menu item
      and the restaurant verbatim. */
  function GenerateCaption(menuItem: string, restaurantName: string, pick: nat): (r: string)
    requires pick < CaptionCount
    ensures r in Captions(menuItem, restaurantName)
    ensures Contains(r, menuItem) && Contains(r, restaurantName)
  {
    ContainsBoth("Just tried the most amazing ", menuItem, " at ", restaurantName, "! 🤤");
    ContainsBoth("This ", menuItem, " is absolutely incredible! ", restaurantName, " never disappoints ✨");
    ContainsBoth("Foodie alert! The ", menuItem, " at ", restaurantName, " is a must-try! 🍽️");
    ContainsBoth("Can't stop thinking about this ", menuItem, " from ", restaurantName, "! 😍");
    Captions(menuItem, restaurantName)[pick]
  }

  /** The generic tags that survive the cap of six. */
  const KeptGenericTags: seq<string> := ["#Foodie", "#Delicious", "#Restaurant", "#Food"]

  /** `"#" + s.replace(/\s+/g, '')`. */
  function NameTag(s: string): (r: string)
    ensures |r| > 0 && r[0] == '#' && r[1..] == RemoveWhitespace(s)
  {
    "#" + RemoveWhitespace(s)
  }

  /** `generateHashtags`: the eight-entry `baseHashtags` cut to six by
      `slice(0, 6)`: the restaurant tag, the item tag and four generic
      tags. */
  function GenerateHashtags(restaurantName: string, menuItem: string): (r: seq<string>)
    ensures |r| == 6
    ensures r[0] == NameTag(restaurantName) && r[1] == NameTag(menuItem)
    ensures r[2..] == KeptGenericTags
    ensures AllHashtags(r)
  {
    var base := [NameTag(restaurantName), NameTag(menuItem), "#Foodie", "#Delicious",
                 "#Restaurant", "#Food", "#Yum", "#InstaFood"];
    Take(base, 6)
  }

  /** A restaurant name that is empty or all whitespace gives the bare tag "#". */
  lemma BlankRestaurantGivesBareTag(restaurantName: string, menuItem: string)
    requires forall i :: 0 <= i < |restaurantName| ==> IsWhitespace(restaurantName[i])
    ensures GenerateHashtags(restaurantName, menuItem)[0] == "#"
  {
    RemoveWhitespaceBlank(restaurantName);
  }

  /** "#Yum" and "#InstaFood" are cut by the cap: one of them appears only
      when a derived tag happens to spell it. */
  lemma CutTagsAppearOnlyAsDerived(restaurantName: string, menuItem: string, tag: string)
    requires tag == "#Yum" || tag == "#InstaFood"
    ensures tag in GenerateHashtags(restaurantName, menuItem) <==>
              tag == NameTag(restaurantName) || tag == NameTag(menuItem)
  {
    var r := GenerateHashtags(restaurantName, menuItem);
    assert r == [r[0], r[1]] + KeptGenericTags;
    assert tag !in KeptGenericTags;
  }

  /** A tag derived from a name holds no space. */
  lemma NameTagHasNoSpace(s: string)
    ensures ' ' !in NameTag(s)
  {
    assert NameTag(s) == ['#'] + RemoveWhitespace(s);
    assert IsWhitespace(' ');
  }

  /** No generated hashtag holds a space, so the space-joined hashtag line
      splits back into the hashtags. */
  lemma HashtagLineSplitsBack(restaurantName: string, menuItem: string)
    ensures forall i :: 0 <= i < 6 ==> ' ' !in GenerateHashtags(restaurantName, menuItem)[i]
    ensures Split(Join(GenerateHashtags(restaurantName, menuItem), " "), ' ')
            == GenerateHashtags(restaurantName, menuItem)
  {
    var r := GenerateHashtags(restaurantName, menuItem);
    NameTagHasNoSpace(restaurantName);
    NameTagHasNoSpace(menuItem);
    forall i | 2 <= i < 6 ensures ' ' !in r[i] {
      assert r[i] == KeptGenericTags[i - 2];
    }
    SplitJoin(r, ' ');
  }

  /** The form of the post and story generators (`postData`, `storyData`);
      an absent `image` is "". */
  datatype ItemForm = ItemForm(
    menuItem: string,
    description: string,
    price: string,
    restaurantName: string,
    location: string,
    stylePreference: string,
    brandColors: string,
    image: string)

  /** The form's initial state: empty texts, the elegant style and the
      default brand colours. */
  const InitialForm := ItemForm("", "", "", "", "", "elegant", "#FF6B6B,#4ECDC4", "")

  /** The text fields `handleInputChange` is called with. */
  datatype FormField = MenuItemName | Description | Price | RestaurantName | Location | StylePreference | BrandColors

  function FieldValue(f: ItemForm, field: FormField): string {
    match field
    case MenuItemName => f.menuItem
    case Description => f.description
    case Price => f.price
    case RestaurantName => f.restaurantName
    case Location => f.location
    case StylePreference => f.stylePreference
    case BrandColors => f.brandColors
  }

  /** `{ ...prev, [field]: value }`: the field takes the value, every other
      field and the image are kept. */
  function SetFormField(f: ItemForm, field: FormField, value: string): (r: ItemForm)
    ensures FieldValue(r, field) == value
    ensures forall g :: g != field ==> FieldValue(r, g) == FieldValue(f, g)
    ensures r.image == f.image
  {
    match field
    case MenuItemName => f.(menuItem := value)
    case Description => f.(description := value)
    case Price => f.(price := value)
    case RestaurantName => f.(restaurantName := value)
    case Location => f.(location := value)
    case StylePreference => f.(stylePreference := value)
    case BrandColors => f.(brandColors := value)
  }

  /** A single-item post as the generators record it. */
  datatype ItemPost = ItemPost(
    tagline: string,
    caption: string,
    hashtags: seq<string>,
    style: string,
    colors: seq<string>,
    image: string)

  /** The record a generator builds from the form (`mockGeneratedPost`,
      `mockGeneratedStory`): tagline, caption and hashtags from the
      templates, the style keyword as chosen, the colours split at commas. */
  function Assemble(menuItem: string, restaurantName: string, style: string, brandColors: string,
                    image: string, taglinePick: nat, captionPick: nat): (p: ItemPost)
    requires taglinePick < TaglineCount && captionPick < CaptionCount
    ensures p.tagline == GenerateTagline(menuItem, style, taglinePick)
    ensures p.caption in Captions(menuItem, restaurantName)
    ensures p.hashtags == GenerateHashtags(restaurantName, menuItem)
    ensures p.style == style && p.image == image
    ensures p.colors == Split(brandColors, ',') && Join(p.colors, ",") == brandColors
  {
    JoinSplit(brandColors, ',');
    ItemPost(
      GenerateTagline(menuItem, style, taglinePick),
      GenerateCaption(menuItem, restaurantName, captionPick),
      GenerateHashtags(restaurantName, menuItem),
      style,
      Split(brandColors, ','),
      image)
  }

  /** The post with its caption replaced (`{ ...prev, caption }`). */
  function WithCaption(p: ItemPost, caption: string): (q: ItemPost)
    ensures q.caption == caption
    ensures q.tagline == p.tagline && q.hashtags == p.hashtags && q.style == p.style
    ensures q.colors == p.colors && q.image == p.image
  {
    p.(caption := caption)
  }

  /** `generatePost`'s guard: both the menu item name and its description
      must be filled in; the restaurant name is not required. */
  function CheckItemForm(menuItem: string, description: string): (r: Result<()>)
    ensures r.Success? <==> menuItem != "" && description != ""
  {
    if menuItem == "" || description == "" then
      Failure("Please fill in the menu item name and description")
    else Success(())
  }
}
