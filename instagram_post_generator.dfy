/** The single-item post generator page (`InstagramPostGenerator`): a form
    for one dish and the post generated from it with the shared templates.
    The page's React state (`postData`, `generatedPost`, `uploadedImage`)
    becomes the fields of `InstagramPostPage`. */
module InstagramPostGenerator {
  import opened Text
  import opened ItemContent
  import Mockup = InstagramPostMockup
  import Panel = CaptionGenerator

  /** `generatePlaceholderImage(menuItem)`: the same picture for every dish. */
  const PlaceholderImage := "/menu.webp"

  /** `uploadedImage || generatePlaceholderImage(menuItem)`: the upload when
      there is one, else the placeholder; never empty. */
  function PostImage(uploadedImage: string): (r: string)
    ensures r != ""
    ensures uploadedImage != "" ==> r == uploadedImage
    ensures uploadedImage == "" ==> r == PlaceholderImage
  {
    OrElse(uploadedImage, PlaceholderImage)
  }

  /** The preview: the form overlaid by the generated fields, so the
      picture, caption, hashtags and style come from the post and the texts
      of the dish from the form. */
  function Preview(f: ItemForm, post: ItemPost): (v: Mockup.PostView)
    ensures v.title == f.menuItem && v.caption == post.caption
    ensures f.restaurantName != "" ==> v.captionName == f.restaurantName
    ensures v.theme == Mockup.GetStyleClasses(post.style)
    ensures v.image.Some? <==> post.image != ""
    ensures v.image.Some? ==> v.image.value == post.image
    ensures v.priceLine.Some? <==> f.price != ""
    ensures |f.description| <= Mockup.DescriptionLimit ==> v.description == f.description
    ensures v.hashtags <= post.hashtags && |v.hashtags| == Min(Mockup.ShownHashtags, |post.hashtags|)
  {
    Mockup.Render(Mockup.PostData(f.restaurantName, f.location, post.image, f.menuItem,
                                  f.description, f.price, post.caption, post.hashtags, post.style))
  }

  /** The page's state. */
  class InstagramPostPage {
    var postData: ItemForm
    var generatedPost: Option<ItemPost>
    var uploadedImage: string

    /** A generated post has a picture and six hashtags, none of them
        holding a space. */
    ghost predicate Valid()
      reads this
    {
      generatedPost.Some? ==>
        generatedPost.value.image != "" && |generatedPost.value.hashtags| == 6 && AllHashtags(generatedPost.value.hashtags)
        && forall i :: 0 <= i < 6 ==> ' ' !in generatedPost.value.hashtags[i]
    }

    /** The initial state: an empty form in the elegant style with the
        default brand colours. */
    constructor ()
      ensures Valid()
      ensures postData == InitialForm
      ensures generatedPost == None && uploadedImage == ""
    {
      postData := InitialForm;
      generatedPost := None;
      uploadedImage := "";
    }

    /** `handleInputChange(field, value)`. */
    method HandleInputChange(field: FormField, value: string)
      requires Valid()
      modifies this`postData
      ensures Valid()
      ensures postData == SetFormField(old(postData), field, value)
    {
      postData := SetFormField(postData, field, value);
    }

    /** `handleImageUpload`: a chosen file's data URL becomes the uploaded
        image and the form's `image`. */
    method HandleImageUpload(file: Option<string>)
      requires Valid()
      modifies this`postData, this`uploadedImage
      ensures Valid()
      ensures file.None? ==> postData == old(postData) && uploadedImage == old(uploadedImage)
      ensures file.Some? ==> postData == old(postData).(image := file.value) && uploadedImage == file.value
    {
      if file.Some? {
        uploadedImage := file.value;
        postData := postData.(image := file.value);
      }
    }

    /** `generatePost`: refused unless the dish's name and description are
        filled in; otherwise a post from the templates, pictured by the
        upload or the placeholder. */
    method GeneratePost(taglinePick: nat, captionPick: nat) returns (r: Result<()>)
      requires Valid()
      requires taglinePick < TaglineCount && captionPick < CaptionCount
      modifies this`generatedPost
      ensures Valid()
      ensures r == CheckItemForm(postData.menuItem, postData.description)
      ensures r.Failure? ==> generatedPost == old(generatedPost)
      ensures r.Success? ==>
                generatedPost == Some(Assemble(postData.menuItem, postData.restaurantName, postData.stylePreference,
                                               postData.brandColors, PostImage(uploadedImage),
                                               taglinePick, captionPick))
    {
      r := CheckItemForm(postData.menuItem, postData.description);
      if r.Success? {
        HashtagLineSplitsBack(postData.restaurantName, postData.menuItem);
        generatedPost := Some(Assemble(postData.menuItem, postData.restaurantName, postData.stylePreference,
                                       postData.brandColors, PostImage(uploadedImage), taglinePick, captionPick));
      }
    }

    /** `copyCaption`: nothing without a post; otherwise the restaurant name,
        the caption, a blank line and the hashtags. */
    method CopyCaption() returns (text: Option<string>)
      requires Valid()
      ensures text.Some? <==> generatedPost.Some?
      ensures text.Some? ==>
                text.value == Panel.FullCaption(postData.restaurantName, generatedPost.value.caption,
                                                generatedPost.value.hashtags)
      ensures text.Some? ==>
                IsSuffix(Panel.HashtagText(generatedPost.value.hashtags), text.value)
                && Split(Panel.HashtagText(generatedPost.value.hashtags), ' ') == generatedPost.value.hashtags
    {
      if generatedPost.None? {
        return None;
      }
      Panel.HashtagTextRoundTrip(generatedPost.value.hashtags);
      text := Some(Panel.FullCaption(postData.restaurantName, generatedPost.value.caption,
                                     generatedPost.value.hashtags));
    }

    /** `handleCaptionChange(newCaption)`. */
    method HandleCaptionChange(newCaption: string)
      requires Valid()
      modifies this`generatedPost
      ensures Valid()
      ensures old(generatedPost).None? ==> generatedPost.None?
      ensures old(generatedPost).Some? ==> generatedPost == Some(WithCaption(old(generatedPost).value, newCaption))
    {
      if generatedPost.Some? {
        generatedPost := Some(WithCaption(generatedPost.value, newCaption));
      }
    }

    /** `regenerateCaption`: nothing without a restaurant name; otherwise a
        post's caption is drawn again from the templates for the current
        form. */
    method RegenerateCaption(pick: nat)
      requires Valid()
      requires pick < CaptionCount
      modifies this`generatedPost
      ensures Valid()
      ensures postData.restaurantName == "" || old(generatedPost).None? ==> generatedPost == old(generatedPost)
      ensures postData.restaurantName != "" && old(generatedPost).Some? ==>
                generatedPost == Some(WithCaption(old(generatedPost).value,
                                                  GenerateCaption(postData.menuItem, postData.restaurantName, pick)))
    {
      if postData.restaurantName == "" {
        return;
      }
      if generatedPost.Some? {
        var newCaption := GenerateCaption(postData.menuItem, postData.restaurantName, pick);
        generatedPost := Some(WithCaption(generatedPost.value, newCaption));
      }
    }
  }
}
