/** The QR-code landing page (`QRScanner`): the scanned query names one of
    the mock menu items, and the page generates a single-item post for it
    with the shared templates. Its React state (`menuItem`, `generatedPost`,
    `stylePreference`, `brandColors`, `uploadedImage`) becomes the fields of
    `QRScannerPage`; the effect that reads the query runs in the
    constructor. */
module QRScanner {
  import opened Text
  import opened ItemContent
  import Mockup = InstagramPostMockup
  import Panel = CaptionGenerator

  /** A menu item as a QR code identifies it; an absent `image` is "". */
  datatype MenuItemData = MenuItemData(
    id: string,
    name: string,
    description: string,
    price: string,
    image: string,
    restaurantName: string,
    location: string)

  /** `mockMenuItems`: three dishes of one restaurant. */
  const MockMenuItems: seq<MenuItemData> := [
    MenuItemData("1", "Truffle Arancini", "Delicate truffle arancini with aged parmesan and micro herbs",
                 "$24.00", "/menu.webp", "Svang", "New York, NY"),
    MenuItemData("2", "Wagyu Beef Tenderloin", "Pan-seared wagyu beef with cherry gastrique and seasonal vegetables",
                 "$68.00", "/menu.webp", "Svang", "New York, NY"),
    MenuItemData("3", "Chocolate Lava Cake", "Decadent chocolate soufflé with vanilla bean ice cream",
                 "$18.00", "/menu.webp", "Svang", "New York, NY")
  ]

  /** Every mock item is pictured by the placeholder and belongs to the
      same restaurant. */
  lemma MockItemsPictured(item: MenuItemData)
    requires item in MockMenuItems
    ensures item.image == "/menu.webp" && item.image != ""
    ensures item.restaurantName == "Svang" && item.location == "New York, NY"
  {
  }

  /** `searchParams.get('item') || '1'`: a missing or empty `item` parameter
      means item "1". */
  function ItemId(query: Option<string>): (r: string)
    ensures query.Some? && query.value != "" ==> r == query.value
    ensures query.None? || query.value == "" ==> r == "1"
  {
    OrElse(if query.Some? then query.value else "", "1")
  }

  /** `items.find(item => item.id === id)`: the first item with that id, or
      None when no item has it. */
  function Find(items: seq<MenuItemData>, id: string): (r: Option<MenuItemData>)
    ensures r.None? <==> forall i :: 0 <= i < |items| ==> items[i].id != id
    ensures r.Some? ==> exists k :: 0 <= k < |items| && items[k] == r.value
                                    && forall j :: 0 <= j < k ==> items[j].id != id
    ensures r.Some? ==> r.value.id == id
  {
    if items == [] then None
    else if items[0].id == id then Some(items[0])
    else
      var rest := Find(items[1..], id);
      assert forall i :: 0 < i < |items| ==> items[i] == items[1..][i - 1];
      rest
  }

  /** The ids of the mock items are distinct, so an item is found by its id
      and only by it. */
  lemma FindMockItem(k: nat, id: string)
    requires k < |MockMenuItems|
    ensures Find(MockMenuItems, id) == Some(MockMenuItems[k]) <==> id == MockMenuItems[k].id
  {
    if id == MockMenuItems[k].id {
      var r := Find(MockMenuItems, id);
      var j :| 0 <= j < |MockMenuItems| && MockMenuItems[j] == r.value
               && forall i :: 0 <= i < j ==> MockMenuItems[i].id != id;
      assert j == k;
    }
  }

  /** A scan finds an item exactly when its id is one of "1", "2", "3"; with
      no usable query the first item is shown. */
  lemma ScanResult(query: Option<string>)
    ensures Find(MockMenuItems, ItemId(query)).Some? <==> ItemId(query) in {"1", "2", "3"}
    ensures query.None? ==> Find(MockMenuItems, ItemId(query)) == Some(MockMenuItems[0])
  {
    var id := ItemId(query);
    if id == "1" { FindMockItem(0, id); }
    else if id == "2" { FindMockItem(1, id); }
    else if id == "3" { FindMockItem(2, id); }
    else {
      assert forall i :: 0 <= i < |MockMenuItems| ==> MockMenuItems[i].id != id;
    }
  }

  /** The preview of a post: the item's texts, overlaid by the generated
      fields. */
  function Preview(item: MenuItemData, post: ItemPost): (v: Mockup.PostView)
    ensures v.title == item.name && v.caption == post.caption
    ensures item.restaurantName != "" ==> v.captionName == item.restaurantName
    ensures v.theme == Mockup.GetStyleClasses(post.style)
    ensures v.image.Some? <==> post.image != ""
    ensures v.image.Some? ==> v.image.value == post.image
    ensures v.priceLine.Some? <==> item.price != ""
    ensures v.hashtags <= post.hashtags && |v.hashtags| == Min(Mockup.ShownHashtags, |post.hashtags|)
  {
    Mockup.Render(Mockup.PostData(item.restaurantName, item.location, post.image, item.name,
                                  item.description, item.price, post.caption, post.hashtags, post.style))
  }

  /** The page's state. */
  class QRScannerPage {
    var menuItem: Option<MenuItemData>
    var generatedPost: Option<ItemPost>
    var stylePreference: string
    var brandColors: string
    var uploadedImage: string

    /** A shown item is a mock item; a post exists only for a shown item, is
        tagged for it, and has a picture. */
    ghost predicate Valid()
      reads this
    {
      && (menuItem.Some? ==> menuItem.value in MockMenuItems)
      && (generatedPost.Some? ==>
            && menuItem.Some?
            && generatedPost.value.hashtags == GenerateHashtags(menuItem.value.restaurantName, menuItem.value.name)
            && generatedPost.value.image != "")
    }

    /** The page after the scan effect: the item the query names, if any,
        with its picture as the uploaded image. */
    constructor (query: Option<string>)
      ensures Valid()
      ensures menuItem == Find(MockMenuItems, ItemId(query))
      ensures menuItem.Some? ==> uploadedImage == menuItem.value.image
      ensures menuItem.None? ==> uploadedImage == ""
      ensures generatedPost == None
      ensures stylePreference == "elegant" && brandColors == "#FF6B6B,#4ECDC4"
    {
      var found := Find(MockMenuItems, ItemId(query));
      menuItem := found;
      uploadedImage := if found.Some? then found.value.image else "";
      generatedPost := None;
      stylePreference := "elegant";
      brandColors := "#FF6B6B,#4ECDC4";
    }

    /** The style select (`setStylePreference`). */
    method ChooseStyle(style: string)
      requires Valid()
      modifies this`stylePreference
      ensures Valid() && stylePreference == style
    {
      stylePreference := style;
    }

    /** The brand colours input (`setBrandColors`). */
    method SetBrandColors(value: string)
      requires Valid()
      modifies this`brandColors
      ensures Valid() && brandColors == value
    {
      brandColors := value;
    }

    /** `handleImageUpload`: a chosen file's data URL replaces the uploaded
        image. */
    method HandleImageUpload(file: Option<string>)
      requires Valid()
      modifies this`uploadedImage
      ensures Valid()
      ensures file.Some? ==> uploadedImage == file.value
      ensures file.None? ==> uploadedImage == old(uploadedImage)
    {
      if file.Some? {
        uploadedImage := file.value;
      }
    }

    /** `generatePost`: nothing without an item; otherwise a post from the
        templates for the item, pictured by the uploaded image or else the
        item's own. */
    method GeneratePost(taglinePick: nat, captionPick: nat)
      requires Valid()
      requires taglinePick < TaglineCount && captionPick < CaptionCount
      modifies this`generatedPost
      ensures Valid()
      ensures menuItem.None? ==> generatedPost == old(generatedPost)
      ensures menuItem.Some? ==>
                generatedPost == Some(Assemble(menuItem.value.name, menuItem.value.restaurantName,
                                               stylePreference, brandColors,
                                               OrElse(uploadedImage, menuItem.value.image),
                                               taglinePick, captionPick))
    {
      if menuItem.None? {
        return;
      }
      var item := menuItem.value;
      MockItemsPictured(item);
      generatedPost := Some(Assemble(item.name, item.restaurantName, stylePreference, brandColors,
                                     OrElse(uploadedImage, item.image), taglinePick, captionPick));
    }

    /** `copyCaption`: nothing without a post; otherwise the restaurant name,
        the caption, a blank line and the hashtags. */
    method CopyCaption() returns (text: Option<string>)
      requires Valid()
      ensures text.Some? <==> generatedPost.Some?
      ensures text.Some? ==>
                text.value == Panel.FullCaption(menuItem.value.restaurantName, generatedPost.value.caption,
                                                generatedPost.value.hashtags)
    {
      if generatedPost.None? || menuItem.None? {
        return None;
      }
      text := Some(Panel.FullCaption(menuItem.value.restaurantName, generatedPost.value.caption,
                                     generatedPost.value.hashtags));
    }

    /** `handleCaptionChange(newCaption)`. */
    method HandleCaptionChange(newCaption: string)
      requires Valid()
      modifies this`generatedPost
      ensures Valid()
      ensures old(generatedPost).None? ==> generatedPost.None?
      ensures old(generatedPost).Some? ==> generatedPost == Some(WithCaption(old(generatedPost).value, newCaption))
    {
      if generatedPost.Some? {
        generatedPost := Some(WithCaption(generatedPost.value, newCaption));
      }
    }

    /** `regenerateCaption`: a post's caption is drawn again from the
        templates for the item. */
    method RegenerateCaption(pick: nat)
      requires Valid()
      requires pick < CaptionCount
      modifies this`generatedPost
      ensures Valid()
      ensures menuItem.None? || old(generatedPost).None? ==> generatedPost == old(generatedPost)
      ensures menuItem.Some? && old(generatedPost).Some? ==>
                generatedPost == Some(WithCaption(old(generatedPost).value,
                                                  GenerateCaption(menuItem.value.name, menuItem.value.restaurantName, pick)))
    {
      if menuItem.None? {
        return;
      }
      if generatedPost.Some? {
        var newCaption := GenerateCaption(menuItem.value.name, menuItem.value.restaurantName, pick);
        generatedPost := Some(WithCaption(generatedPost.value, newCaption));
      }
    }
  }
}
