/** The content preview page (`ContentPreview`): the fixed content records
    it shows for a five-course menu handed over from the menu builder, the
    regeneration that swaps in the alternative record, and the text file and
    clipboard texts built from a record. */
module ContentPreview {
  import opened Text
  import MenuBuilder

  /** A `GeneratedContent` record: a post caption, its hashtags and a story
      caption. */
  datatype GeneratedContent = GeneratedContent(caption: string, hashtags: seq<string>, storyCaption: string)

  const InitialCaptionRest := "Experience our exquisite 5-course tasting menu at Bella Vista!\n\nFrom our delicate truffle arancini to our decadent chocolate soufflé, each course is crafted with passion and the finest ingredients.\n\n✨ Tonight's featured courses showcase the best of Italian fine dining with a modern twist. Book your table and embark on a culinary journey that will awaken your senses.\n\n#BellaVista #ItalianCuisine #FoodieExperience"
  const InitialStoryRest := "Tonight's 5-course journey awaits! Which course are you most excited to try? Comment below! 👇✨"

  const InitialHashtags: seq<string> := ["#BellaVista", "#ItalianCuisine", "#FoodieExperience", "#FineDining", "#TastingMenu", "#CulinaryArt", "#TruffleArancini", "#ChocolateSoufflé", "#RestaurantLife", "#ChefSpecial", "#FoodLovers", "#DiningExperience"]

  /** The record the page shows after loading (`mockContent`). */
  const InitialContent := GeneratedContent(
    "🍽️ " + InitialCaptionRest,
    InitialHashtags,
    "🔥 " + InitialStoryRest)

  const AlternativeCaptionRest := "Indulge in culinary excellence at Bella Vista!\n\nOur carefully curated 5-course menu takes you on a gastronomic adventure through authentic Italian flavors with contemporary flair.\n\n👨‍🍳 Each dish tells a story, from farm-fresh ingredients to time-honored techniques passed down through generations.\n\nReservations available - don't miss this extraordinary dining experience!"
  const AlternativeStoryRest := "Behind the scenes: Our chef preparing tonight's signature dishes! What's your favorite Italian dish? 🍝❤️"

  const AlternativeHashtags: seq<string> := ["#BellaVistaRestaurant", "#AuthenticItalian", "#CulinaryExcellence", "#FarmToTable", "#GastronomicAdventure", "#ItalianTradition", "#ModernCuisine", "#ExquisiteDining", "#FoodArt", "#ChefCrafted", "#ReservationRequired", "#UnforgettableExperience"]

  /** The record `regenerateContent` swaps in (`alternativeContent`). */
  const AlternativeContent := GeneratedContent(
    "🌟 " + AlternativeCaptionRest,
    AlternativeHashtags,
    "✨ " + AlternativeStoryRest)

  /** What the page does with the navigation state it is opened with: with
      a menu (even an empty one, an array being truthy) it lists the menu and
      shows the initial record; without one it sends the user back to the
      menu builder. */
  datatype LoadOutcome =
    | Redirect(path: string)
    | Show(menuItems: seq<MenuBuilder.CourseItem>, content: GeneratedContent)

  const MenuBuilderPath := "/menu-builder"

  /** The `useEffect` on `location.state`, once its generation delay has
      passed. */
  function Load(state: Option<seq<MenuBuilder.CourseItem>>): (r: LoadOutcome)
    ensures r.Redirect? <==> state.None?
    ensures r.Redirect? ==> r.path == MenuBuilderPath
    ensures r.Show? ==> r.menuItems == state.value && r.content == InitialContent
  {
    match state
    case None => Redirect(MenuBuilderPath)
    case Some(items) => Show(items, InitialContent)
  }

  /** `regenerateContent`: whatever was shown, the alternative record. */
  function Regenerate(current: Option<GeneratedContent>): (r: GeneratedContent)
    ensures r == AlternativeContent
  {
    AlternativeContent
  }

  /** Regeneration replaces the whole record: the caption, the hashtags and
      the story caption all change at once, and regenerating again shows the
      same record. */
  lemma RegenerateReplacesWholeRecord(current: Option<GeneratedContent>)
    ensures Regenerate(current).caption != InitialContent.caption
    ensures Regenerate(current).hashtags != InitialContent.hashtags
    ensures Regenerate(current).storyCaption != InitialContent.storyCaption
    ensures Regenerate(Some(Regenerate(current))) == Regenerate(current)
  {
    assert InitialContent.caption[0] == '🍽' && AlternativeContent.caption[0] == '🌟';
    assert InitialContent.hashtags[1][1] == 'I' && AlternativeContent.hashtags[1][1] == 'A';
    assert InitialContent.storyCaption[0] == '🔥' && AlternativeContent.storyCaption[0] == '✨';
  }

  /** A tag as the records write them: a '#' first and no space. */
  predicate IsTag(t: string) {
    |t| > 0 && t[0] == '#' && ' ' !in t
  }

  /** Both records carry twelve hashtags, each starting with '#' and none
      holding a space. */
  predicate WellFormed(c: GeneratedContent) {
    |c.hashtags| == 12 && AllHashtags(c.hashtags)
    && forall i :: 0 <= i < |c.hashtags| ==> ' ' !in c.hashtags[i]
  }

  /** Twelve tags, each a '#' first and no space. */
  predicate TagList(tags: seq<string>) {
    |tags| == 12 && forall i :: 0 <= i < |tags| ==> IsTag(tags[i])
  }

  lemma InitialHashtagsAreTags()
    ensures TagList(InitialHashtags)
  {
    assert IsTag(InitialHashtags[0]);
    assert IsTag(InitialHashtags[1]);
    assert IsTag(InitialHashtags[2]);
    assert IsTag(InitialHashtags[3]);
    assert IsTag(InitialHashtags[4]);
    assert IsTag(InitialHashtags[5]);
    assert IsTag(InitialHashtags[6]);
    assert IsTag(InitialHashtags[7]);
    assert IsTag(InitialHashtags[8]);
    assert IsTag(InitialHashtags[9]);
    assert IsTag(InitialHashtags[10]);
    assert IsTag(InitialHashtags[11]);
  }

  lemma AlternativeHashtagsAreTags()
    ensures TagList(AlternativeHashtags)
  {
    assert IsTag(AlternativeHashtags[0]);
    assert IsTag(AlternativeHashtags[1]);
    assert IsTag(AlternativeHashtags[2]);
    assert IsTag(AlternativeHashtags[3]);
    assert IsTag(AlternativeHashtags[4]);
    assert IsTag(AlternativeHashtags[5]);
    assert IsTag(AlternativeHashtags[6]);
    assert IsTag(AlternativeHashtags[7]);
    assert IsTag(AlternativeHashtags[8]);
    assert IsTag(AlternativeHashtags[9]);
    assert IsTag(AlternativeHashtags[10]);
    assert IsTag(AlternativeHashtags[11]);
  }

  lemma RecordsWellFormed()
    ensures WellFormed(InitialContent) && WellFormed(AlternativeContent)
  {
    InitialHashtagsAreTags();
    AlternativeHashtagsAreTags();
  }

  /** The text the hashtag copy button puts on the clipboard: the hashtags
      separated by single spaces; for a well-formed record it splits back
      into the hashtags. */
  function HashtagCopyText(c: GeneratedContent): (r: string)
    ensures WellFormed(c) ==> Split(r, ' ') == c.hashtags
  {
    if WellFormed(c) then SplitJoin(c.hashtags, ' '); Join(c.hashtags, " ")
    else Join(c.hashtags, " ")
  }

  const CaptionHeading := "Caption:\n"
  const HashtagsHeading := "\n\nHashtags:\n"
  const StoryHeading := "\n\nStory Caption:\n"

  /** `downloadContent`'s file text: nothing without a record; otherwise
      the caption, the hashtag line and the story caption, each under its
      heading. */
  function DownloadText(content: Option<GeneratedContent>): (r: Option<string>)
    ensures r.None? <==> content.None?
    ensures r.Some? ==>
              r.value == CaptionHeading + content.value.caption + HashtagsHeading
                         + HashtagCopyText(content.value) + StoryHeading + content.value.storyCaption
  {
    match content
    case None => None
    case Some(c) =>
      Some(CaptionHeading + c.caption + HashtagsHeading + Join(c.hashtags, " ") + StoryHeading + c.storyCaption)
  }

  /** The file gives back what it was written from: the caption right after
      the first heading, the hashtag line (which splits back into the
      hashtags) right after the second, and the story caption at the end. */
  lemma {:induction false} DownloadTextParts(c: GeneratedContent)
    requires WellFormed(c)
    ensures var t := DownloadText(Some(c)).value;
            var k := |CaptionHeading| + |c.caption| + |HashtagsHeading|;
            var h := HashtagCopyText(c);
            |t| == k + |h| + |StoryHeading| + |c.storyCaption|
            && t[|CaptionHeading|..|CaptionHeading| + |c.caption|] == c.caption
            && t[k..k + |h|] == h && Split(t[k..k + |h|], ' ') == c.hashtags
            && t[|t| - |c.storyCaption|..] == c.storyCaption
  {
    var t := DownloadText(Some(c)).value;
    var h := HashtagCopyText(c);
    var a := CaptionHeading + c.caption + HashtagsHeading;
    assert t == a + h + (StoryHeading + c.storyCaption);
    assert (CaptionHeading + c.caption)[|CaptionHeading|..] == c.caption;
  }
}
