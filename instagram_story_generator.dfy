/** The story generator page (`InstagramStoryGenerator`): the form of one
    dish, and the story generated from it with the shared templates and,
    without an upload, one of six stock food photographs. The page only
    stores the results of these functions, so its state is a value here and
    each handler a function from state to state. */
module InstagramStoryGenerator {
  import opened Text
  import opened Themes
  import opened ItemContent
  import Mockup = InstagramStoryMockup

  /** The stock photographs of `generatePlaceholderImage`'s `foodImages`
      list: Unsplash photo URLs that differ only in the photo id. */
  const UnsplashPhoto := "https://images.unsplash.com/photo-"
  const PhotoQuery := "?w=600&h=600&fit=crop&q=80"

  function FoodImage(photoId: string): (r: string)
    ensures |r| == |UnsplashPhoto| + |photoId| + |PhotoQuery|
    ensures r[..|UnsplashPhoto|] == UnsplashPhoto && r[|UnsplashPhoto| + |photoId|..] == PhotoQuery
    ensures r[|UnsplashPhoto|..|UnsplashPhoto| + |photoId|] == photoId
  {
    UnsplashPhoto + photoId + PhotoQuery
  }

  const PhotoIds: seq<string> := ["1565299624946-b28f40a0ca4b", "1546833999-b9f581a1996d", "1578985545062-69928b1d9587", "1555939594-58d7cb561ad1", "1565299507177-b0ac66763828", "1571091718767-18b5b1457add"]

  const FoodImages: seq<string> := [FoodImage(PhotoIds[0]), FoodImage(PhotoIds[1]), FoodImage(PhotoIds[2]), FoodImage(PhotoIds[3]), FoodImage(PhotoIds[4]), FoodImage(PhotoIds[5])]

  const FoodImageCount: nat := 6

  /** `generatePlaceholderImage(menuItem)`: one of the stock photographs,
      whatever the dish. */
  function PlaceholderImage(pick: nat): (r: string)
    requires pick < FoodImageCount
    ensures r in FoodImages && r != ""
  {
    assert |UnsplashPhoto| == 34;
    FoodImages[pick]
  }

  /** Distinct photo ids give distinct URLs. */
  lemma FoodImageInjective(a: string, b: string)
    requires FoodImage(a) == FoodImage(b)
    ensures a == b
  {
    assert |a| == |b|;
  }

  /** The six stock photographs are distinct, so each pick gives its own. */
  lemma FoodImagesDistinct(i: nat, j: nat)
    requires i < FoodImageCount && j < FoodImageCount && i != j
    ensures FoodImages[i] != FoodImages[j]
  {
    if FoodImages[i] == FoodImages[j] {
      FoodImageInjective(PhotoIds[i], PhotoIds[j]);

      assert false;
    }
  }

  /** `uploadedImage || generatePlaceholderImage(menuItem)`: the upload when
      there is one, else a stock photograph. */
  function StoryImage(uploadedImage: string, imagePick: nat): (r: string)
    requires imagePick < FoodImageCount
    ensures r != ""
    ensures uploadedImage != "" ==> r == uploadedImage
    ensures uploadedImage == "" ==> r in FoodImages
  {
    OrElse(uploadedImage, PlaceholderImage(imagePick))
  }

  /** `generateStory`: refused, with the form's message, unless the dish's
      name and description are filled in; otherwise the story built from the
      templates and the form. */
  function GenerateStory(f: ItemForm, uploadedImage: string,
                         taglinePick: nat, captionPick: nat, imagePick: nat): (r: Result<ItemPost>)
    requires taglinePick < TaglineCount && captionPick < CaptionCount && imagePick < FoodImageCount
    ensures r.Success? <==> CheckItemForm(f.menuItem, f.description).Success?
    ensures r.Failure? ==> r == Failure(CheckItemForm(f.menuItem, f.description).message)
    ensures r.Success? ==>
              r.value == Assemble(f.menuItem, f.restaurantName, f.stylePreference, f.brandColors,
                                  StoryImage(uploadedImage, imagePick), taglinePick, captionPick)
  {
    match CheckItemForm(f.menuItem, f.description)
    case Failure(message) => Failure(message)
    case Success(_) =>
      Success(Assemble(f.menuItem, f.restaurantName, f.stylePreference, f.brandColors,
                       StoryImage(uploadedImage, imagePick), taglinePick, captionPick))
  }

  /** What a generated story holds: a tagline of the chosen style (the
      elegant list for an unknown one), a caption naming dish and
      restaurant, the six hashtags, a picture, and the brand colours split
      at commas, one more than there are commas, that join back into the
      text typed. */
  lemma StoryContents(f: ItemForm, uploadedImage: string, taglinePick: nat, captionPick: nat, imagePick: nat)
    requires taglinePick < TaglineCount && captionPick < CaptionCount && imagePick < FoodImageCount
    requires f.menuItem != "" && f.description != ""
    ensures GenerateStory(f, uploadedImage, taglinePick, captionPick, imagePick).Success?
    ensures var s := GenerateStory(f, uploadedImage, taglinePick, captionPick, imagePick).value;
            (IsKnownStyle(f.stylePreference) ==> s.tagline in TaglineTable(f.menuItem)[f.stylePreference])
            && (!IsKnownStyle(f.stylePreference) ==> s.tagline in TaglineTable(f.menuItem)["elegant"])
            && Contains(s.caption, f.menuItem) && Contains(s.caption, f.restaurantName)
            && |s.hashtags| == 6 && s.hashtags[2..] == KeptGenericTags
            && (uploadedImage == "" ==> s.image in FoodImages)
            && |s.colors| == multiset(f.brandColors)[','] + 1
            && Join(s.colors, ",") == f.brandColors
  {
    var s := GenerateStory(f, uploadedImage, taglinePick, captionPick, imagePick).value;
    SplitCount(f.brandColors, ',');
    assert s.caption == GenerateCaption(f.menuItem, f.restaurantName, captionPick);
  }

  /** The page's state. */
  datatype StoryPage = StoryPage(storyData: ItemForm, generatedStory: Option<ItemPost>, uploadedImage: string)

  const InitialPage := StoryPage(InitialForm, None, "")

  /** `handleInputChange(field, value)`. */
  function HandleInputChange(p: StoryPage, field: FormField, value: string): (q: StoryPage)
    ensures q.storyData == SetFormField(p.storyData, field, value)
    ensures q.generatedStory == p.generatedStory && q.uploadedImage == p.uploadedImage
  {
    p.(storyData := SetFormField(p.storyData, field, value))
  }

  /** `handleImageUpload`: a chosen file's data URL becomes the uploaded
      image and the form's `image`; no file changes nothing. */
  function HandleImageUpload(p: StoryPage, file: Option<string>): (q: StoryPage)
    ensures file.None? ==> q == p
    ensures file.Some? ==>
              q.uploadedImage == file.value && q.storyData == p.storyData.(image := file.value)
              && q.generatedStory == p.generatedStory
  {
    if file.None? then p
    else p.(uploadedImage := file.value, storyData := p.storyData.(image := file.value))
  }

  /** The state after `generateStory`: a refused form keeps the old story. */
  function AfterGenerate(p: StoryPage, taglinePick: nat, captionPick: nat, imagePick: nat): (q: StoryPage)
    requires taglinePick < TaglineCount && captionPick < CaptionCount && imagePick < FoodImageCount
    ensures q.storyData == p.storyData && q.uploadedImage == p.uploadedImage
    ensures (p.storyData.menuItem == "" || p.storyData.description == "") ==> q.generatedStory == p.generatedStory
    ensures p.storyData.menuItem != "" && p.storyData.description != "" ==>
              q.generatedStory == Some(GenerateStory(p.storyData, p.uploadedImage, taglinePick, captionPick, imagePick).value)
  {
    match GenerateStory(p.storyData, p.uploadedImage, taglinePick, captionPick, imagePick)
    case Failure(_) => p
    case Success(story) => p.(generatedStory := Some(story))
  }

  /** The preview: the form overlaid by the story, so picture, caption,
      hashtags, style and colours come from the story; the first three
      hashtags are shown. */
  function Preview(f: ItemForm, story: ItemPost): (v: Mockup.StoryView)
    ensures v.theme == Mockup.GetStyleClasses(story.style)
    ensures v.title == f.menuItem && v.tagline == story.tagline
    ensures v.image.Some? <==> story.image != ""
    ensures v.image.Some? ==> v.image.value == story.image
    ensures v.pricePill.Some? <==> f.price != ""
    ensures v.hashtags <= story.hashtags && |v.hashtags| == Min(Mockup.ShownHashtags, |story.hashtags|)
  {
    Mockup.Render(Mockup.StoryData(f.menuItem, f.description, f.price, f.restaurantName, f.location,
                                   story.image, story.tagline, story.caption, story.hashtags,
                                   story.style, story.colors))
  }
}
