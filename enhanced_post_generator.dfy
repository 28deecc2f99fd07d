/** The enhanced post generator page (`EnhancedPostGenerator`): a form whose
    post type is a whole menu, a single dish or a customer's photo, a list of
    menu items edited in place, and the generated post with its caption
    panel. The page's React state (`postData`, `generatedPost`,
    `uploadedImage`) becomes the fields of `EnhancedPostPage`; a random
    choice from a list becomes a caller-supplied index `pick`. */
module EnhancedPostGenerator {
  import opened Text
  import Panel = CaptionGenerator
  import ItemContent

  datatype PostType = Menu | Single | UserImage

  /** A menu item of the form; an absent `image` is "". */
  datatype MenuItem = MenuItem(name: string, description: string, price: string, image: string)

  /** `keyof MenuItem`. */
  datatype ItemField = Name | Description | Price | Image

  function FieldOf(item: MenuItem, field: ItemField): string {
    match field
    case Name => item.name
    case Description => item.description
    case Price => item.price
    case Image => item.image
  }

  /** `{ ...item, [field]: value }`: the one field is replaced, the others
      are kept. */
  function SetField(item: MenuItem, field: ItemField, value: string): (r: MenuItem)
    ensures FieldOf(r, field) == value
    ensures forall other: ItemField :: other != field ==> FieldOf(r, other) == FieldOf(item, other)
  {
    match field
    case Name => item.(name := value)
    case Description => item.(description := value)
    case Price => item.(price := value)
    case Image => item.(image := value)
  }

  /** The item `addMenuItem` appends: every field empty. */
  const NewItem := MenuItem("", "", "", "")

  /** `items.map((item, i) => i === index ? { ...item, [field]: value } : item)`:
      the length is kept, only the item at `index` changes, and an index out
      of range changes nothing. */
  function UpdateAt(items: seq<MenuItem>, index: int, field: ItemField, value: string): (r: seq<MenuItem>)
    ensures |r| == |items|
    ensures forall i :: 0 <= i < |items| && i != index ==> r[i] == items[i]
    ensures 0 <= index < |items| ==> r[index] == SetField(items[index], field, value)
    ensures !(0 <= index < |items|) ==> r == items
  {
    seq(|items|, i requires 0 <= i < |items| =>
      if i == index then SetField(items[i], field, value) else items[i])
  }

  /** `items.filter((_, i) => i !== index)`: the item at `index` is dropped
      and the others keep their order; an index out of range drops nothing. */
  function RemoveAt(items: seq<MenuItem>, index: int): (r: seq<MenuItem>)
    ensures 0 <= index < |items| ==> r == items[..index] + items[index + 1..]
    ensures !(0 <= index < |items|) ==> r == items
    decreases |items|
  {
    if items == [] then []
    else
      var rest := RemoveAt(items[1..], index - 1);
      if index == 0 then
        assert items[index + 1..] == items[1..];
        rest
      else
        assert items == [items[0]] + items[1..];
        assert 0 < index < |items| ==> items[..index] == [items[0]] + items[1..][..index - 1];
        assert 0 < index < |items| ==> items[index + 1..] == items[1..][index..];
        [items[0]] + rest
  }

  /** Removing the item just added gives back the list it was added to. */
  lemma RemoveUndoesAdd(items: seq<MenuItem>)
    ensures RemoveAt(items + [NewItem], |items|) == items
  {
    assert (items + [NewItem])[..|items|] == items;
  }

  /** `generatePlaceholderImage(itemName)`: the same picture whatever the name. */
  const PlaceholderImage := "/menu.webp"

  /** `{ ...item, image: item.image || generatePlaceholderImage(item.name) }`:
      the item's own picture when it has one, else the placeholder; the text
      fields are kept. */
  function WithPlaceholder(item: MenuItem): (r: MenuItem)
    ensures r.name == item.name && r.description == item.description && r.price == item.price
    ensures r.image != ""
    ensures item.image != "" ==> r.image == item.image
    ensures item.image == "" ==> r.image == PlaceholderImage
  {
    item.(image := OrElse(item.image, PlaceholderImage))
  }

  /** `menuItems.map(...)` with `WithPlaceholder`: every item pictured,
      in order. */
  function WithPlaceholders(items: seq<MenuItem>): (r: seq<MenuItem>)
    ensures |r| == |items|
    ensures forall i :: 0 <= i < |items| ==> r[i] == WithPlaceholder(items[i]) && r[i].image != ""
  {
    seq(|items|, i requires 0 <= i < |items| => WithPlaceholder(items[i]))
  }

  const TaglineCount: nat := 4
  const CaptionCount: nat := 3

  /** The `taglines` list for a menu post. */
  function MenuTaglines(restaurantName: string): seq<string> {
    ["🍽️ Our signature dishes await you!", "✨ Tonight's featured menu ✨", "🔥 Must-try dishes at " + restaurantName + " 🔥", "🌟 Discover our culinary treasures 🌟"]
  }

  /** The `taglines` list for a customer-photo post. */
  function UserImageTaglines(restaurantName: string): seq<string> {
    ["📸 Amazing food at " + restaurantName + "!", "🤤 This looks incredible!", "✨ Thanks for sharing! ✨", "🍴 Delicious moments captured 🍴"]
  }

  /** The text a single-dish post gets as its tagline and as its caption. */
  function SingleText(restaurantName: string): string {
    "Delicious food at " + restaurantName
  }

  /** `generateTagline(data)`: a candidate of the post type's list; a
      single-dish post always gets the same text. */
  function GenerateTagline(restaurantName: string, postType: PostType, pick: nat): (r: string)
    requires pick < TaglineCount
    ensures postType == Menu ==> r in MenuTaglines(restaurantName)
    ensures postType == UserImage ==> r in UserImageTaglines(restaurantName)
    ensures postType == Single ==> r == SingleText(restaurantName)
  {
    match postType
    case Menu => MenuTaglines(restaurantName)[pick]
    case UserImage => UserImageTaglines(restaurantName)[pick]
    case Single => SingleText(restaurantName)
  }

  /** The fixed text of the caption templates. */
  const MenuCaption1Tail := "! Our carefully crafted menu features the finest ingredients and traditional techniques. From appetizers to desserts, every dish tells a story of passion and flavor. 🍽️✨"
  const MenuCaption2Rest := "to embark on a culinary journey? Our menu showcases the perfect blend of innovation and tradition. Each dish is prepared with love and attention to detail. Book your table today! 📞🍴"
  const MenuCaption3Tail := " is the talk of the town! Our menu features signature dishes that will transport your taste buds to new heights. Don't miss out on these incredible flavors! 🌟👨‍🍳"
  const UserImageCaption1Rest := "you for sharing this beautiful moment with us! We're thrilled to see our food bringing joy to your dining experience. Tag us in your posts! 📸✨"
  const UserImageCaption2Rest := "makes us happier than seeing our customers enjoy our food! Thanks for the amazing photo and for choosing "
  const UserImageCaption2Tail := ". Keep the foodie moments coming! 🍽️❤️"
  const UserImageCaption3Rest := "photo perfectly captures the essence of great food and good times! We're so grateful for customers like you who share their dining experiences. Can't wait to serve you again! 🥰👨‍🍳"

  /** The `captions` list for a menu post. */
  function MenuCaptions(restaurantName: string): seq<string> {
    ["Experience the best of " + restaurantName + MenuCaption1Tail,
     "Ready " + MenuCaption2Rest,
     "Discover why " + restaurantName + MenuCaption3Tail]
  }

  /** The `captions` list for a customer-photo post. */
  function UserImageCaptions(restaurantName: string): seq<string> {
    ["Thank " + UserImageCaption1Rest,
     "Nothing " + UserImageCaption2Rest + restaurantName + UserImageCaption2Tail,
     "This " + UserImageCaption3Rest]
  }

  /** `generateCaption(data)`: a candidate of the post type's list; a
      single-dish post gets the same text as its tagline. */
  function GenerateCaption(restaurantName: string, postType: PostType, pick: nat): (r: string)
    requires pick < CaptionCount
    ensures postType == Menu ==> r in MenuCaptions(restaurantName)
    ensures postType == UserImage ==> r in UserImageCaptions(restaurantName)
    ensures postType == Single ==> r == SingleText(restaurantName)
  {
    match postType
    case Menu => MenuCaptions(restaurantName)[pick]
    case UserImage => UserImageCaptions(restaurantName)[pick]
    case Single => "Delicious food at " + restaurantName
  }

  /** A single-dish post repeats its tagline as its caption. */
  lemma SingleCaptionIsTagline(restaurantName: string, taglinePick: nat, captionPick: nat)
    requires taglinePick < TaglineCount && captionPick < CaptionCount
    ensures GenerateCaption(restaurantName, Single, captionPick)
            == GenerateTagline(restaurantName, Single, taglinePick)
  {
  }

  /** The first four characters of a generated text; no template shares
      them with a template of another post type. */
  function Lead(s: string): string {
    if |s| < 4 then s else s[..4]
  }

  /** A text's lead is the lead of its first part when that part is long
      enough. */
  lemma LeadOfConcat(head: string, rest: string)
    requires |head| >= 4
    ensures Lead(head + rest) == Lead(head)
  {
    assert (head + rest)[..4] == head[..4];
  }

  function TaglineLeads(postType: PostType): set<string> {
    match postType
    case Menu => {"🍽️ O", "✨ To", "🔥 Mu", "🌟 Di"}
    case UserImage => {"📸 Am", "🤤 Th", "✨ Th", "🍴 De"}
    case Single => {"Deli"}
  }

  function CaptionLeads(postType: PostType): set<string> {
    match postType
    case Menu => {"Expe", "Read", "Disc"}
    case UserImage => {"Than", "Noth", "This"}
    case Single => {"Deli"}
  }

  lemma SingleTextLead(restaurantName: string)
    ensures Lead(SingleText(restaurantName)) == "Deli"
  {
    assert SingleText(restaurantName) == "Delicious food at " + restaurantName;
    LeadOfConcat("Delicious food at ", restaurantName);
    assert Lead("Delicious food at ") == "Deli";
  }

  /** The lead of a tagline does not depend on the restaurant name. */
  lemma TaglineLead(restaurantName: string, postType: PostType, pick: nat)
    requires pick < TaglineCount
    ensures Lead(GenerateTagline(restaurantName, postType, pick)) in TaglineLeads(postType)
  {
    match postType
    case Menu => MenuTaglineLead(restaurantName, pick);
    case UserImage => UserImageTaglineLead(restaurantName, pick);
    case Single => SingleTextLead(restaurantName);
  }

  lemma MenuTaglineLead(restaurantName: string, pick: nat)
    requires pick < TaglineCount
    ensures Lead(MenuTaglines(restaurantName)[pick]) in TaglineLeads(Menu)
  {
    if pick == 0 {
      assert Lead("🍽️ Our signature dishes await you!") == "🍽️ O";
    } else if pick == 1 {
      assert Lead("✨ Tonight's featured menu ✨") == "✨ To";
    } else if pick == 2 {
      assert MenuTaglines(restaurantName)[2] == "🔥 Must-try dishes at " + (restaurantName + " 🔥");
      LeadOfConcat("🔥 Must-try dishes at ", restaurantName + " 🔥");
      assert Lead("🔥 Must-try dishes at ") == "🔥 Mu";
    } else {
      assert Lead("🌟 Discover our culinary treasures 🌟") == "🌟 Di";
    }
  }

  lemma UserImageTaglineLead(restaurantName: string, pick: nat)
    requires pick < TaglineCount
    ensures Lead(UserImageTaglines(restaurantName)[pick]) in TaglineLeads(UserImage)
  {
    if pick == 0 {
      assert UserImageTaglines(restaurantName)[0] == "📸 Amazing food at " + (restaurantName + "!");
      LeadOfConcat("📸 Amazing food at ", restaurantName + "!");
      assert Lead("📸 Amazing food at ") == "📸 Am";
    } else if pick == 1 {
      assert Lead("🤤 This looks incredible!") == "🤤 Th";
    } else if pick == 2 {
      assert Lead("✨ Thanks for sharing! ✨") == "✨ Th";
    } else {
      assert Lead("🍴 Delicious moments captured 🍴") == "🍴 De";
    }
  }

  /** The lead of a caption does not depend on the restaurant name. */
  lemma CaptionLead(restaurantName: string, postType: PostType, pick: nat)
    requires pick < CaptionCount
    ensures Lead(GenerateCaption(restaurantName, postType, pick)) in CaptionLeads(postType)
  {
    match postType
    case Menu => MenuCaptionLead(restaurantName, pick);
    case UserImage => UserImageCaptionLead(restaurantName, pick);
    case Single => SingleTextLead(restaurantName);
  }

  lemma MenuCaptionLead(restaurantName: string, pick: nat)
    requires pick < CaptionCount
    ensures Lead(MenuCaptions(restaurantName)[pick]) in CaptionLeads(Menu)
  {
    if pick == 0 {
      ExperienceCaptionLead(restaurantName);
    } else if pick == 1 {
      LeadOfConcat("Ready ", MenuCaption2Rest);
      assert Lead("Ready ") == "Read";
    } else {
      DiscoverCaptionLead(restaurantName);
    }
  }

  lemma ExperienceCaptionLead(restaurantName: string)
    ensures Lead(MenuCaptions(restaurantName)[0]) == "Expe"
  {
    assert MenuCaptions(restaurantName)[0] == "Experience the best of " + (restaurantName + MenuCaption1Tail);
    LeadOfConcat("Experience the best of ", restaurantName + MenuCaption1Tail);
    assert Lead("Experience the best of ") == "Expe";
  }

  lemma DiscoverCaptionLead(restaurantName: string)
    ensures Lead(MenuCaptions(restaurantName)[2]) == "Disc"
  {
    assert MenuCaptions(restaurantName)[2] == "Discover why " + (restaurantName + MenuCaption3Tail);
    LeadOfConcat("Discover why ", restaurantName + MenuCaption3Tail);
    assert Lead("Discover why ") == "Disc";
  }

  lemma UserImageCaptionLead(restaurantName: string, pick: nat)
    requires pick < CaptionCount
    ensures Lead(UserImageCaptions(restaurantName)[pick]) in CaptionLeads(UserImage)
  {
    if pick == 0 {
      LeadOfConcat("Thank ", UserImageCaption1Rest);
      assert Lead("Thank ") == "Than";
    } else if pick == 1 {
      var rest := UserImageCaption2Rest + restaurantName + UserImageCaption2Tail;
      assert UserImageCaptions(restaurantName)[1] == "Nothing " + rest;
      LeadOfConcat("Nothing ", rest);
      assert Lead("Nothing ") == "Noth";
    } else {
      LeadOfConcat("This ", UserImageCaption3Rest);
      assert Lead("This ") == "This";
    }
  }

  /** A tagline tells which kind of post it was generated for, whatever the
      restaurant names and the picks. */
  lemma TaglineIdentifiesPostType(name1: string, type1: PostType, pick1: nat,
                                  name2: string, type2: PostType, pick2: nat)
    requires pick1 < TaglineCount && pick2 < TaglineCount
    requires GenerateTagline(name1, type1, pick1) == GenerateTagline(name2, type2, pick2)
    ensures type1 == type2
  {
    TaglineLead(name1, type1, pick1);
    TaglineLead(name2, type2, pick2);
  }

  /** So does a caption. */
  lemma CaptionIdentifiesPostType(name1: string, type1: PostType, pick1: nat,
                                  name2: string, type2: PostType, pick2: nat)
    requires pick1 < CaptionCount && pick2 < CaptionCount
    requires GenerateCaption(name1, type1, pick1) == GenerateCaption(name2, type2, pick2)
    ensures type1 == type2
  {
    CaptionLead(name1, type1, pick1);
    CaptionLead(name2, type2, pick2);
  }

  /** `#${restaurantHandle.replace('@', '')}`: the handle without its first
      "@". */
  function HandleTag(handle: string): (r: string)
    ensures |r| > 0 && r[0] == '#' && r[1..] == RemoveFirst(handle, '@')
    ensures handle != "" && handle[0] == '@' ==> r == "#" + handle[1..]
    ensures '@' !in handle ==> r == "#" + handle
  {
    "#" + RemoveFirst(handle, '@')
  }

  /** The ten generic entries of `baseHashtags`. */
  const GenericTags: seq<string> := ["#Foodie", "#Delicious", "#Restaurant", "#Food", "#Yum",
                                     "#InstaFood", "#Foodstagram", "#EatLocal", "#FoodLovers", "#Culinary"]

  /** The entries pushed for a post type. */
  function TypeTags(postType: PostType): (r: seq<string>)
    ensures |r| == if postType == Single then 0 else 4
    ensures AllHashtags(r)
  {
    match postType
    case Menu => ["#Menu", "#Dining", "#ChefSpecial", "#FineDining"]
    case UserImage => ["#CustomerPhoto", "#FoodPhoto", "#DiningOut", "#FoodShare"]
    case Single => []
  }

  /** `slice(0, 8)`. */
  const HashtagCap: nat := 8

  /** The twelve entries `baseHashtags` starts with. */
  function BaseHashtags(handle: string, name: string): (r: seq<string>)
    ensures |r| == 12 && AllHashtags(r)
  {
    [HandleTag(handle), ItemContent.NameTag(name)] + GenericTags
  }

  /** `generateHashtags` as written: the post type's tags are pushed after
      the twelve base entries and the list is then cut to eight, so the
      result is the first eight base entries for every post type. */
  method GenerateHashtagsAsWritten(handle: string, name: string, postType: PostType) returns (tags: seq<string>)
    ensures tags == BaseHashtags(handle, name)[..HashtagCap]
    ensures AllHashtags(tags)
  {
    var baseHashtags := BaseHashtags(handle, name);
    if postType == Menu {
      baseHashtags := baseHashtags + ["#Menu", "#Dining", "#ChefSpecial", "#FineDining"];
    }
    if postType == UserImage {
      baseHashtags := baseHashtags + ["#CustomerPhoto", "#FoodPhoto", "#DiningOut", "#FoodShare"];
    }
    tags := Take(baseHashtags, HashtagCap);
  }

  /** Under that cap a post-type tag reaches the post only when the handle
      or the name happens to spell it. */
  lemma TypeTagsCutByCap(handle: string, name: string, postType: PostType, tag: string)
    requires tag in TypeTags(postType)
    ensures tag in BaseHashtags(handle, name)[..HashtagCap] <==> tag == HandleTag(handle) || tag == ItemContent.NameTag(name)
  {
    var r := BaseHashtags(handle, name)[..HashtagCap];
    assert r == [HandleTag(handle), ItemContent.NameTag(name)] + GenericTags[..6];
    assert tag !in GenericTags[..6];
  }

  /** A menu post for "Bella Vista" with handle "@bellavista_nyc": its
      derived tags start "#b" and "#B", so none of the four menu tags
      reaches the post. */
  lemma MenuTagsLostForBellaVista(handle: string, name: string)
    requires handle == "@bellavista_nyc" && name == "Bella Vista"
    ensures HandleTag(handle)[1] == 'b' && ItemContent.NameTag(name)[1] == 'B'
    ensures forall tag :: tag in TypeTags(Menu) ==> tag !in BaseHashtags(handle, name)[..HashtagCap]
  {
    assert handle[0] == '@';
    assert HandleTag(handle)[1..] == handle[1..];
    assert name[0] == 'B' && !IsWhitespace(name[0]);
    assert RemoveWhitespace(name) == [name[0]] + RemoveWhitespace(name[1..]);
    var menuTags := TypeTags(Menu);
    forall tag | tag in menuTags
      ensures tag !in BaseHashtags(handle, name)[..HashtagCap]
    {
      assert |tag| > 1 && tag[1] in {'M', 'D', 'C', 'F'};
      TypeTagsCutByCap(handle, name, Menu, tag);
    }
  }

  /** `generateHashtags` as evidently intended: the handle tag and the name
      tag, then the post type's tags, then generic tags up to eight. Every
      post-type tag is kept, and a single-dish post is tagged as before. */
  function GenerateHashtags(handle: string, name: string, postType: PostType): (r: seq<string>)
    ensures |r| == HashtagCap && AllHashtags(r)
    ensures r[0] == HandleTag(handle) && r[1] == ItemContent.NameTag(name)
    ensures r[2..2 + |TypeTags(postType)|] == TypeTags(postType)
    ensures forall tag :: tag in TypeTags(postType) ==> tag in r
    ensures r[2 + |TypeTags(postType)|..] <= GenericTags
    ensures postType == Single ==> r == BaseHashtags(handle, name)[..HashtagCap]
  {
    if postType == Single then BaseHashtags(handle, name)[..HashtagCap]
    else
      var lead := [HandleTag(handle), ItemContent.NameTag(name)];
      var typeTags := TypeTags(postType);
      var tags := lead + typeTags + GenericTags[..2];
      assert tags[0] == HandleTag(handle) && tags[1] == ItemContent.NameTag(name);
      assert tags[2..6] == typeTags;
      assert tags[6..] == GenericTags[..2];
      assert AllHashtags(GenericTags[..2]);
      AllHashtagsAppend(lead, typeTags);
      AllHashtagsAppend(lead + typeTags, GenericTags[..2]);
      tags
  }

  /** What `generatePost` records. */
  datatype EnhancedPost = EnhancedPost(
    tagline: string,
    caption: string,
    hashtags: seq<string>,
    style: string,
    colors: seq<string>,
    menuItems: seq<MenuItem>,
    singleItem: Option<MenuItem>,
    userImage: string)

  /** The page's `postData` state; an absent `userImage` is "". */
  datatype PostData = PostData(
    restaurantName: string,
    restaurantHandle: string,
    location: string,
    menuItems: seq<MenuItem>,
    userImage: string,
    postType: PostType,
    stylePreference: string,
    brandColors: string)

  /** The form fields `handleInputChange` is called with for a text value. */
  datatype FormField = RestaurantName | RestaurantHandle | Location | StylePreference | BrandColors

  function FormValue(d: PostData, field: FormField): string {
    match field
    case RestaurantName => d.restaurantName
    case RestaurantHandle => d.restaurantHandle
    case Location => d.location
    case StylePreference => d.stylePreference
    case BrandColors => d.brandColors
  }

  /** `{ ...prev, [field]: value }` for a text field: the field takes the
      value, every other field, the items, the photo and the post type are
      kept. */
  function SetFormField(d: PostData, field: FormField, value: string): (r: PostData)
    ensures FormValue(r, field) == value
    ensures forall g :: g != field ==> FormValue(r, g) == FormValue(d, g)
    ensures r.menuItems == d.menuItems && r.userImage == d.userImage && r.postType == d.postType
  {
    match field
    case RestaurantName => d.(restaurantName := value)
    case RestaurantHandle => d.(restaurantHandle := value)
    case Location => d.(location := value)
    case StylePreference => d.(stylePreference := value)
    case BrandColors => d.(brandColors := value)
  }

  const NoItemsMessage := "Please add at least one menu item"
  const NoNameMessage := "Please fill in restaurant name and handle"

  /** `generatePost`'s two guards, in order: a menu post needs an item, and
      every post needs the restaurant name and handle. */
  function CheckForm(d: PostData): (r: Result<()>)
    ensures r.Success? <==> (d.postType != Menu || d.menuItems != []) && d.restaurantName != "" && d.restaurantHandle != ""
    ensures d.postType == Menu && d.menuItems == [] ==> r == Failure(NoItemsMessage)
    ensures r.Failure? && !(d.postType == Menu && d.menuItems == []) ==> r == Failure(NoNameMessage)
  {
    if d.postType == Menu && d.menuItems == [] then Failure(NoItemsMessage)
    else if d.restaurantName == "" || d.restaurantHandle == "" then Failure(NoNameMessage)
    else Success(())
  }

  /** Every item of a post carries a picture, and its hashtags are eight
      hashtags. */
  predicate WellFormed(p: EnhancedPost) {
    && |p.hashtags| == HashtagCap && AllHashtags(p.hashtags)
    && (forall i :: 0 <= i < |p.menuItems| ==> p.menuItems[i].image != "")
    && (p.singleItem.Some? ==> p.singleItem.value.image != "")
  }

  /** `mockGeneratedPost`: the texts from the templates, the form's style,
      its colours split at commas, every item with a picture, the first item
      as the single item, and the customer's photo. */
  function BuildPost(d: PostData, uploadedImage: string, taglinePick: nat, captionPick: nat): (p: EnhancedPost)
    requires taglinePick < TaglineCount && captionPick < CaptionCount
    ensures WellFormed(p)
    ensures p.tagline == GenerateTagline(d.restaurantName, d.postType, taglinePick)
    ensures p.caption == GenerateCaption(d.restaurantName, d.postType, captionPick)
    ensures p.hashtags == GenerateHashtags(d.restaurantHandle, d.restaurantName, d.postType)
    ensures p.style == d.stylePreference
    ensures p.colors == Split(d.brandColors, ',') && Join(p.colors, ",") == d.brandColors
    ensures |p.menuItems| == |d.menuItems|
    ensures forall i :: 0 <= i < |d.menuItems| ==> p.menuItems[i] == WithPlaceholder(d.menuItems[i])
    ensures p.singleItem.Some? <==> d.menuItems != []
    ensures p.singleItem.Some? ==> p.singleItem.value == WithPlaceholder(d.menuItems[0])
    ensures p.userImage == OrElse(d.userImage, uploadedImage)
  {
    JoinSplit(d.brandColors, ',');
    EnhancedPost(
      GenerateTagline(d.restaurantName, d.postType, taglinePick),
      GenerateCaption(d.restaurantName, d.postType, captionPick),
      GenerateHashtags(d.restaurantHandle, d.restaurantName, d.postType),
      d.stylePreference,
      Split(d.brandColors, ','),
      WithPlaceholders(d.menuItems),
      if d.menuItems != [] then Some(WithPlaceholder(d.menuItems[0])) else None,
      OrElse(d.userImage, uploadedImage))
  }

  /** The page's state. */
  class EnhancedPostPage {
    var postData: PostData
    var generatedPost: Option<EnhancedPost>
    var uploadedImage: string

    /** A generated post is always well formed. */
    ghost predicate Valid()
      reads this
    {
      generatedPost.Some? ==> WellFormed(generatedPost.value)
    }

    /** The initial state: an empty menu post in the elegant style with the
        default brand colours, and nothing generated. */
    constructor ()
      ensures Valid()
      ensures postData == PostData("", "", "", [], "", Menu, "elegant", "#FF6B6B,#4ECDC4")
      ensures generatedPost == None && uploadedImage == ""
    {
      postData := PostData("", "", "", [], "", Menu, "elegant", "#FF6B6B,#4ECDC4");
      generatedPost := None;
      uploadedImage := "";
    }

    /** `handleInputChange(field, value)` for a text field. */
    method HandleInputChange(field: FormField, value: string)
      requires Valid()
      modifies this`postData
      ensures Valid()
      ensures postData == SetFormField(old(postData), field, value)
    {
      postData := SetFormField(postData, field, value);
    }

    /** `handleInputChange('postType', value)` from the tabs. */
    method SetPostType(postType: PostType)
      requires Valid()
      modifies this`postData
      ensures Valid()
      ensures postData == old(postData).(postType := postType)
    {
      postData := postData.(postType := postType);
    }

    /** `addMenuItem`: an empty item is appended. */
    method AddMenuItem()
      requires Valid()
      modifies this`postData
      ensures Valid()
      ensures postData == old(postData).(menuItems := old(postData.menuItems) + [NewItem])
    {
      postData := postData.(menuItems := postData.menuItems + [NewItem]);
    }

    /** `updateMenuItem(index, field, value)`. */
    method UpdateMenuItem(index: int, field: ItemField, value: string)
      requires Valid()
      modifies this`postData
      ensures Valid()
      ensures postData == old(postData).(menuItems := UpdateAt(old(postData.menuItems), index, field, value))
    {
      postData := postData.(menuItems := UpdateAt(postData.menuItems, index, field, value));
    }

    /** `removeMenuItem(index)`. */
    method RemoveMenuItem(index: int)
      requires Valid()
      modifies this`postData
      ensures Valid()
      ensures postData == old(postData).(menuItems := RemoveAt(old(postData.menuItems), index))
    {
      postData := postData.(menuItems := RemoveAt(postData.menuItems, index));
    }

    /** `handleImageUpload`: when a file was chosen, its data URL becomes both
        the uploaded image and the form's `userImage`; otherwise nothing
        changes. */
    method HandleImageUpload(file: Option<string>)
      requires Valid()
      modifies this`postData, this`uploadedImage
      ensures Valid()
      ensures file.None? ==> postData == old(postData) && uploadedImage == old(uploadedImage)
      ensures file.Some? ==> postData == old(postData).(userImage := file.value) && uploadedImage == file.value
    {
      if file.Some? {
        uploadedImage := file.value;
        postData := postData.(userImage := file.value);
      }
    }

    /** `generatePost`: the form is checked, and only when it passes is a new
        post recorded. */
    method GeneratePost(taglinePick: nat, captionPick: nat) returns (r: Result<()>)
      requires Valid()
      requires taglinePick < TaglineCount && captionPick < CaptionCount
      modifies this`generatedPost
      ensures Valid()
      ensures r == CheckForm(postData)
      ensures r.Failure? ==> generatedPost == old(generatedPost)
      ensures r.Success? ==> generatedPost == Some(BuildPost(postData, uploadedImage, taglinePick, captionPick))
    {
      r := CheckForm(postData);
      if r.Success? {
        generatedPost := Some(BuildPost(postData, uploadedImage, taglinePick, captionPick));
      }
    }

    /** `copyCaption`: the text handed to the clipboard, the caption panel's
        full caption led by the handle; nothing without a post. */
    method CopyCaption() returns (text: Option<string>)
      ensures text.Some? <==> generatedPost.Some?
      ensures text.Some? ==>
                text.value == Panel.Render(postData.restaurantHandle, generatedPost.value.caption,
                                           generatedPost.value.hashtags, true).fullText
      ensures text.Some? ==> Panel.CaptionText(postData.restaurantHandle, generatedPost.value.caption) + "\n\n" <= text.value
    {
      if generatedPost.Some? {
        text := Some(Panel.FullCaption(postData.restaurantHandle, generatedPost.value.caption, generatedPost.value.hashtags));
      } else {
        text := None;
      }
    }

    /** `handleCaptionChange(newCaption)`: the caption of a post, if any, is
        replaced and the rest of the post kept. */
    method HandleCaptionChange(newCaption: string)
      requires Valid()
      modifies this`generatedPost
      ensures Valid()
      ensures old(generatedPost).None? ==> generatedPost.None?
      ensures old(generatedPost).Some? ==> generatedPost == Some(old(generatedPost).value.(caption := newCaption))
    {
      if generatedPost.Some? {
        generatedPost := Some(generatedPost.value.(caption := newCaption));
      }
    }

    /** `regenerateCaption`: nothing happens without a restaurant name and
        handle; otherwise a post's caption is drawn again from the templates
        for the current form. */
    method RegenerateCaption(pick: nat)
      requires Valid()
      requires pick < CaptionCount
      modifies this`generatedPost
      ensures Valid()
      ensures postData.restaurantName == "" || postData.restaurantHandle == "" || old(generatedPost).None? ==>
                generatedPost == old(generatedPost)
      ensures postData.restaurantName != "" && postData.restaurantHandle != "" && old(generatedPost).Some? ==>
                generatedPost == Some(old(generatedPost).value.(
                  caption := GenerateCaption(postData.restaurantName, postData.postType, pick)))
    {
      if postData.restaurantName == "" || postData.restaurantHandle == "" {
        return;
      }
      if generatedPost.Some? {
        var newCaption := GenerateCaption(postData.restaurantName, postData.postType, pick);
        generatedPost := Some(generatedPost.value.(caption := newCaption));
      }
    }
  }
}
