# Restaurant Instagram content generator, modelled in Dafny

The application lets a restaurant build Instagram posts and stories from its
menu. Every generator fills a template with the restaurant's name, handle and
dishes, then draws a tagline, a caption, hashtags and a picture.
Preview components then lay the result out as an Instagram post or story.
Every page is a React component whose state is a handful of `useState`
records.

## What is modelled

- `Text` holds the JavaScript string operations the pages use, with their
  JavaScript meaning:
  - `replace(/\s+/g, '')` deletes every whitespace character;
  - `replace('@', '')` deletes only the first `@`;
  - `split`, `join`, `substring` and `slice`;
  - the `||` fallback, where the empty string counts as false.
- `Themes` holds the theme list every page offers, and the four style keywords.
- Three pages define the same template tables: the QR-code page, the post
  generator and the story generator. `ItemContent` holds them once:
  - `generateTagline`, `generateCaption` and `generateHashtags`;
  - the form these pages share;
  - the posts those pages generate;
  - their validation gate.
- `InstagramStoryMockup` and `InstagramPostMockup` model the two preview
  components. Each has a style lookup with an elegant fallback, cuts the
  description, shows only the leading hashtags and falls back for a missing
  name, initial or location.
- `CaptionGenerator` models the caption panel's clipboard texts.
- One module per page:
  - `QRScanner`, `InstagramPostGenerator` and `EnhancedPostGenerator`.
    Each page's state is a Dafny class whose methods are the page's event
    handlers, with `modifies` clauses and a `Valid()` invariant.
  - `InstagramStoryGenerator` and `ContentPreview`. These pages only store
    results, so they are modelled as pure functions.
  - `MenuBuilder`, whose two state fields form a class with a guarded add.
- Random choices are parameters:
  - a pick from a list of `n` entries is a caller-supplied `pick` with
    `pick < n`;
  - a timestamp id is a given string;
  - a file picked for upload is an `Option` of its data URL.

## Model

| member | source | states |
|---|---|---|
| `Text.RemoveWhitespace` | src/pages/InstagramPostGenerator.tsx:125-126 | The result has no whitespace and is never longer than the input. It is the input itself when the input has no whitespace. |
| `Text.RemoveWhitespaceKeeps` | src/pages/InstagramPostGenerator.tsx:125-126 | The whitespace filter keeps each non-whitespace character exactly as often as it occurs in the input, and keeps no whitespace (the result's multiset is stated character by character). |
| `Text.RemoveWhitespaceAppend` | src/pages/InstagramPostGenerator.tsx:125-126 | Filtering a concatenation is the concatenation of the filtered parts. |
| `Text.RemoveWhitespaceIdempotent` | src/pages/InstagramPostGenerator.tsx:125-126 | Filtering twice is filtering once. |
| `Text.RemoveWhitespaceBlank` | src/pages/InstagramPostGenerator.tsx:125 | A string made only of whitespace filters to the empty string. |
| `Text.RemoveFirst` | src/pages/EnhancedPostGenerator.tsx:208 | Without the character the string is unchanged. Otherwise exactly one character is removed, and a leading occurrence is the one removed. |
| `Text.RemoveFirstAt` | src/pages/EnhancedPostGenerator.tsx:208 | The removed character is the first occurrence; everything before and after it is kept. |
| `Text.RemoveFirstMultiset` | src/pages/EnhancedPostGenerator.tsx:208 | Exactly one copy of the character leaves the multiset of characters, or none when it is absent. |
| `Text.Split` | src/pages/InstagramPostGenerator.tsx:86 | `split` yields at least one piece, and no piece holds the separator. |
| `Text.SplitCount` | src/pages/InstagramStoryGenerator.tsx:86 | A split has one more piece than the string has separators. |
| `Text.Join` | src/components/CaptionGenerator.tsx:70 | `join` of no parts is the empty string, and of one part is that part (the separator appears only between parts). |
| `Text.JoinSplit` | src/pages/InstagramStoryGenerator.tsx:86 | Joining the pieces of a split with the separator gives back the original string. |
| `Text.SplitJoin` | src/components/CaptionGenerator.tsx:70 | Splitting a join gives back the parts, when no part holds the separator. |
| `Text.SplitPrefix` | src/pages/InstagramStoryGenerator.tsx:86 | A split of `p + sep + tail` is `p` followed by the split of `tail`. |
| `Text.SplitNoSeparator` | src/pages/InstagramStoryGenerator.tsx:86 | A string without the separator splits into itself. |
| `Text.Truncate` | src/components/InstagramStoryMockup.tsx:108 | A text within the limit is kept. A longer text becomes its first `n` characters plus `"..."`, so it is never longer than `n + 3`. |
| `Text.Take` | src/components/InstagramStoryMockup.tsx:127 | `slice(0, n)` is a prefix of length `min(n, length)`. |
| `Text.OrElse` | src/components/InstagramStoryMockup.tsx:73-74 | `s \|\| fallback` is `s` when it is non-empty, else the fallback. |
| `Text.AllHashtagsAppend` | src/pages/EnhancedPostGenerator.tsx:222-230 | Two lists of `#`-tags concatenate to a list of `#`-tags. |
| `Themes.KnownStylesAreThemeIds` | src/pages/InstagramStoryGenerator.tsx:25-30 | The four style keywords are exactly the theme ids the form offers. |
| `InstagramStoryMockup.GetStyleClasses` | src/components/InstagramStoryMockup.tsx:20-53 | Total. A known style gets its own bundle; every other key gets the elegant bundle. |
| `InstagramStoryMockup.StylesKeys` | src/components/InstagramStoryMockup.tsx:21-50 | The table's keys are exactly the four style keywords. |
| `InstagramStoryMockup.UnknownStyleIsElegant` | src/components/InstagramStoryMockup.tsx:52 | Any unknown key renders exactly like "elegant". |
| `InstagramStoryMockup.StyleBundlesDistinct` | src/components/InstagramStoryMockup.tsx:21-50 | The four bundles differ, so a bundle identifies its style. |
| `InstagramStoryMockup.Initial` | src/components/InstagramStoryMockup.tsx:69 | The avatar letter is the first character of the name, or "R" for an empty name. |
| `InstagramStoryMockup.Render` | src/components/InstagramStoryMockup.tsx:55-131 | The story view. It has the theme of the style and the name, location and initial fallbacks. A picture is shown iff there is an image. The description is cut at 80 (at most 83 characters shown). A price pill is shown iff there is a price. The first at most 3 hashtags are shown, in order. |
| `InstagramPostMockup.GetStyleClasses` | src/components/InstagramPostMockup.tsx:31-64 | Total, with the elegant bundle for unknown keys. |
| `InstagramPostMockup.SameTableAsStory` | src/components/InstagramPostMockup.tsx:32-63 | The post mockup's table equals the story mockup's, key for key. |
| `InstagramPostMockup.Render` | src/components/InstagramPostMockup.tsx:66-141 | The post view. It has the name fallback in the header and again in the caption line, the location and initial fallbacks, a picture iff there is an image, the description cut at 60 (at most 63 characters), a price line iff there is a price, and at most the first 4 hashtags. |
| `CaptionGenerator.CaptionText` | src/components/CaptionGenerator.tsx:47 | The "Copy Caption" text starts with the handle and a space, ends with the caption, and is exactly that long. |
| `CaptionGenerator.HashtagText` | src/components/CaptionGenerator.tsx:70 | The hashtag copy text of no hashtags is empty, and of one hashtag is that hashtag. |
| `CaptionGenerator.HashtagTextRoundTrip` | src/components/CaptionGenerator.tsx:70 | The hashtag copy text splits back at spaces into the hashtags, when none holds a space. |
| `CaptionGenerator.FullCaption` | src/components/CaptionGenerator.tsx:16 | The full caption is the caption copy text, then two newlines, then the hashtag copy text. The lengths add up exactly. |
| `CaptionGenerator.Render` | src/components/CaptionGenerator.tsx:13-105 | The full text starts with what "Copy Caption" copies and ends with what "Copy Hashtags" copies. The download button is shown iff a handler is given. |
| `ItemContent.TaglineTableShape` | src/pages/InstagramPostGenerator.tsx:101-106 | The tagline table has an entry for exactly the four styles, each with three candidates. |
| `ItemContent.GenerateTagline` | src/pages/InstagramPostGenerator.tsx:100-110 | The tagline is a candidate of the style's list, or of the elegant list for an unknown style. The first candidate names the dish. This is the same function as QRScanner.tsx:126-136 and InstagramStoryGenerator.tsx:100-110. |
| `ItemContent.FirstTaglineNamesItem` | src/pages/InstagramPostGenerator.tsx:102-105 | The first candidate of every style contains the dish name verbatim. |
| `ItemContent.MinimalFirstTaglineIsName` | src/pages/InstagramPostGenerator.tsx:102 | The first minimal tagline is exactly the dish name. |
| `ItemContent.UnknownStyleTaglineIsElegant` | src/pages/InstagramPostGenerator.tsx:108 | An unknown style gives the same tagline as "elegant" for every pick. |
| `ItemContent.GenerateCaption` | src/pages/InstagramPostGenerator.tsx:112-121 | The caption is one of the four templates, and it contains both the dish and the restaurant name verbatim. |
| `ItemContent.NameTag` | src/pages/InstagramPostGenerator.tsx:125-126 | A derived tag is "#" followed by the name with its whitespace removed; the enhanced page derives its name tag the same way (EnhancedPostGenerator.tsx:209). |
| `ItemContent.GenerateHashtags` | src/pages/InstagramPostGenerator.tsx:123-136 | Exactly 6 tags, all starting with '#': the restaurant tag, the dish tag, then `#Foodie #Delicious #Restaurant #Food`. |
| `ItemContent.BlankRestaurantGivesBareTag` | src/pages/InstagramPostGenerator.tsx:125 | A blank restaurant name yields the bare tag "#". |
| `ItemContent.CutTagsAppearOnlyAsDerived` | src/pages/InstagramPostGenerator.tsx:131-135 | "#Yum" and "#InstaFood" are in the result iff a derived tag happens to spell them. |
| `ItemContent.HashtagLineSplitsBack` | src/pages/QRScanner.tsx:174 | No tag holds a space, so the space-joined line splits back into the six tags. |
| `ItemContent.SetFormField` | src/pages/InstagramPostGenerator.tsx:51-53 | The edited field takes the value; every other field and the image are kept. |
| `ItemContent.Assemble` | src/pages/InstagramPostGenerator.tsx:81-88 | The post holds the template tagline, a template caption, the six hashtags, and the chosen style and image. Its colours are the comma split of the brand colours, and they join back into them. |
| `ItemContent.WithCaption` | src/pages/InstagramPostGenerator.tsx:163-165 | Only the caption changes. |
| `ItemContent.CheckItemForm` | src/pages/InstagramPostGenerator.tsx:67-75 | Accepted iff both the dish name and the description are non-empty. The restaurant name is not required. |
| `InstagramPostGenerator.PostImage` | src/pages/InstagramPostGenerator.tsx:138-141 | The upload when there is one, else "/menu.webp". Never empty. |
| `InstagramPostGenerator.Preview` | src/pages/InstagramPostGenerator.tsx:374-378 | The form overlaid by the post: the picture, caption, hashtags and style come from the post, and the dish texts and price from the form. |
| `InstagramPostGenerator.InstagramPostPage.constructor` | src/pages/InstagramPostGenerator.tsx:37-49 | An empty form in the elegant style with colours "#FF6B6B,#4ECDC4", and no post. |
| `InstagramPostGenerator.InstagramPostPage.HandleInputChange` | src/pages/InstagramPostGenerator.tsx:51-53 | Sets one form field; keeps the invariant. |
| `InstagramPostGenerator.InstagramPostPage.HandleImageUpload` | src/pages/InstagramPostGenerator.tsx:55-65 | A file becomes both the uploaded image and the form's image. No file changes nothing. |
| `InstagramPostGenerator.InstagramPostPage.GeneratePost` | src/pages/InstagramPostGenerator.tsx:67-98 | The outcome is the form check. A refusal keeps the old post. Otherwise the post is assembled from the form, showing the upload or the placeholder. The invariant (picture, six `#` tags, none holding a space) is kept. |
| `InstagramPostGenerator.InstagramPostPage.CopyCaption` | src/pages/InstagramPostGenerator.tsx:151-161 | Without a post, nothing. Otherwise the full caption led by the restaurant name. Under the page invariant the copied text ends with the hashtag line, which splits back at spaces into the post's six hashtags. |
| `InstagramPostGenerator.InstagramPostPage.HandleCaptionChange` | src/pages/InstagramPostGenerator.tsx:163-165 | Replaces the caption of an existing post only. |
| `InstagramPostGenerator.InstagramPostPage.RegenerateCaption` | src/pages/InstagramPostGenerator.tsx:167-180 | Does nothing without a restaurant name. Otherwise a post's caption is drawn again from the templates. |
| `InstagramStoryGenerator.FoodImage` | src/pages/InstagramStoryGenerator.tsx:140-147 | A stock URL is the Unsplash prefix, the photo id and the size query; the id can be read back from it. |
| `InstagramStoryGenerator.PlaceholderImage` | src/pages/InstagramStoryGenerator.tsx:138-149 | The placeholder is one of the six stock photographs, whatever the dish. |
| `InstagramStoryGenerator.FoodImageInjective` | src/pages/InstagramStoryGenerator.tsx:140-147 | Different photo ids give different URLs. |
| `InstagramStoryGenerator.FoodImagesDistinct` | src/pages/InstagramStoryGenerator.tsx:140-147 | The six photographs are pairwise distinct. |
| `InstagramStoryGenerator.StoryImage` | src/pages/InstagramStoryGenerator.tsx:87 | The upload when there is one, else a member of the stock list. Never empty. |
| `InstagramStoryGenerator.GenerateStory` | src/pages/InstagramStoryGenerator.tsx:67-98 | Fails, with the form's message, exactly when the dish name or description is empty. Otherwise it is the story assembled from the form. |
| `InstagramStoryGenerator.StoryContents` | src/pages/InstagramStoryGenerator.tsx:81-88 | A story for a complete form has a tagline of its style's list (elegant when unknown), a caption naming dish and restaurant, six tags ending in the four generic ones, and a stock picture without an upload. It has one more colour than the brand colours have commas, and its colours join back into the text typed. |
| `InstagramStoryGenerator.HandleInputChange` | src/pages/InstagramStoryGenerator.tsx:51-53 | Sets one form field; the story and the upload are unchanged. |
| `InstagramStoryGenerator.HandleImageUpload` | src/pages/InstagramStoryGenerator.tsx:55-65 | A file becomes both the uploaded image and the form's image. No file changes nothing. |
| `InstagramStoryGenerator.AfterGenerate` | src/pages/InstagramStoryGenerator.tsx:67-98 | An incomplete form keeps the old story. A complete one stores the generated story. The form and the upload are untouched. |
| `InstagramStoryGenerator.Preview` | src/pages/InstagramStoryGenerator.tsx:348-353 | The form overlaid by the story: the picture, tagline, hashtags and style come from the story. The first 3 hashtags are shown. |
| `ContentPreview.Load` | src/pages/ContentPreview.tsx:32-53 | Without menu items in the navigation state, redirect to "/menu-builder". With any menu, even an empty one, show that menu with the initial record. |
| `ContentPreview.Regenerate` | src/pages/ContentPreview.tsx:63-79 | Whatever was shown, the result is the alternative record. |
| `ContentPreview.RegenerateReplacesWholeRecord` | src/pages/ContentPreview.tsx:63-79 | Regeneration changes the caption, the hashtags and the story caption together. Regenerating again shows the same record. |
| `ContentPreview.InitialHashtagsAreTags` | src/pages/ContentPreview.tsx:40-44 | The initial record has twelve hashtags, each starting with '#' and none holding a space. |
| `ContentPreview.AlternativeHashtagsAreTags` | src/pages/ContentPreview.tsx:69-73 | The same holds for the alternative record. |
| `ContentPreview.RecordsWellFormed` | src/pages/ContentPreview.tsx:38-46 | Both records are well formed. |
| `ContentPreview.HashtagCopyText` | src/pages/ContentPreview.tsx:224 | For a well-formed record the copied hashtag line splits back into the hashtags. |
| `ContentPreview.DownloadText` | src/pages/ContentPreview.tsx:88-99 | No text without a record. Otherwise it is exactly "Caption:\n", the caption, "\n\nHashtags:\n", the hashtag line, "\n\nStory Caption:\n" and the story caption. |
| `ContentPreview.DownloadTextParts` | src/pages/ContentPreview.tsx:91 | The file gives its parts back. The caption sits right after the first heading. The hashtag line sits after the second heading and splits back into the hashtags. The story caption ends the file. |
| `MenuBuilder.MockGenerateDescription` | src/pages/MenuBuilder.tsx:69-78 | A known course gets its fixed text; any other key gets "Exquisite culinary creation". Never empty. |
| `MenuBuilder.SuggestionsDistinct` | src/pages/MenuBuilder.tsx:70-76 | The five suggestions are distinct from each other and from the default text. |
| `MenuBuilder.NewItem` | src/pages/MenuBuilder.tsx:41-47 | The new dish copies the id, course, name, description and price of the form. |
| `MenuBuilder.MenuBuilderPage.constructor` | src/pages/MenuBuilder.tsx:30-36 | An empty menu, and the form reset to the appetizer course. |
| `MenuBuilder.MenuBuilderPage.SelectCourse` | src/pages/MenuBuilder.tsx:116 | Only the form's course changes, to the chosen course id. |
| `MenuBuilder.MenuBuilderPage.EditName` | src/pages/MenuBuilder.tsx:132 | Only the form's name changes. |
| `MenuBuilder.MenuBuilderPage.EditDescription` | src/pages/MenuBuilder.tsx:160 | Only the form's description changes. |
| `MenuBuilder.MenuBuilderPage.EditPrice` | src/pages/MenuBuilder.tsx:172 | Only the form's price changes. |
| `MenuBuilder.MenuBuilderPage.SuggestDescription` | src/pages/MenuBuilder.tsx:143-150 | With a course set, the description becomes that course's suggestion. Otherwise nothing changes. |
| `MenuBuilder.MenuBuilderPage.AddMenuItem` | src/pages/MenuBuilder.tsx:39-56 | A form with a name, a description and a course appends exactly one dish, last, and the form is reset; there is no upper bound on the menu length. Any other form leaves the menu and the form unchanged. The invariant is kept: every dish is complete, and the form's course is a course id. |
| `MenuBuilder.MenuBuilderPage.OffersGenerate` | src/pages/MenuBuilder.tsx:191-192 | Generate is offered only from three dishes on, so an offered Generate never meets the empty-menu guard. |
| `MenuBuilder.MenuBuilderPage.GenerateContent` | src/pages/MenuBuilder.tsx:58-67 | No hand-off for an empty menu. Otherwise the menu itself is handed to the content preview. Whenever Generate is offered (three dishes or more), the menu is handed off. |
| `EnhancedPostGenerator.SetField` | src/pages/EnhancedPostGenerator.tsx:86 | The one item field takes the value; the others are kept. |
| `EnhancedPostGenerator.UpdateAt` | src/pages/EnhancedPostGenerator.tsx:82-89 | The length is kept, and only the item at the index changes. An index out of range changes nothing. |
| `EnhancedPostGenerator.RemoveAt` | src/pages/EnhancedPostGenerator.tsx:91-96 | The item at the index is dropped and the others keep their order. An index out of range drops nothing. |
| `EnhancedPostGenerator.RemoveUndoesAdd` | src/pages/EnhancedPostGenerator.tsx:70-96 | Removing the item just added gives back the previous list. |
| `EnhancedPostGenerator.WithPlaceholder` | src/pages/EnhancedPostGenerator.tsx:139-146 | An item keeps its texts and gets a non-empty picture: its own, else "/menu.webp". |
| `EnhancedPostGenerator.WithPlaceholders` | src/pages/EnhancedPostGenerator.tsx:139-142 | Every item is pictured, in order. |
| `EnhancedPostGenerator.GenerateTagline` | src/pages/EnhancedPostGenerator.tsx:160-182 | A menu post gets one of four taglines, a customer-photo post one of four others. A single-dish post gets "Delicious food at " plus the name. |
| `EnhancedPostGenerator.GenerateCaption` | src/pages/EnhancedPostGenerator.tsx:184-204 | A menu post gets one of three captions, a customer-photo post one of three others, and a single-dish post the single-dish text. |
| `EnhancedPostGenerator.SingleCaptionIsTagline` | src/pages/EnhancedPostGenerator.tsx:181 | For a single-dish post the caption equals the tagline. |
| `EnhancedPostGenerator.TaglineLead` | src/pages/EnhancedPostGenerator.tsx:160-182 | The first four characters of a tagline lie in the lead set of its post type. |
| `EnhancedPostGenerator.CaptionLead` | src/pages/EnhancedPostGenerator.tsx:184-204 | The first four characters of a caption lie in the lead set of its post type. |
| `EnhancedPostGenerator.TaglineIdentifiesPostType` | src/pages/EnhancedPostGenerator.tsx:160-182 | Equal taglines come from the same post type, whatever the names and picks. |
| `EnhancedPostGenerator.CaptionIdentifiesPostType` | src/pages/EnhancedPostGenerator.tsx:184-204 | Equal captions come from the same post type, whatever the names and picks. |
| `EnhancedPostGenerator.HandleTag` | src/pages/EnhancedPostGenerator.tsx:208 | "#" followed by the handle without its first "@". A leading "@" is the one dropped; a handle without "@" is kept whole. |
| `EnhancedPostGenerator.TypeTags` | src/pages/EnhancedPostGenerator.tsx:222-228 | Four '#' tags for a menu or customer-photo post, none for a single dish. |
| `EnhancedPostGenerator.BaseHashtags` | src/pages/EnhancedPostGenerator.tsx:207-220 | Twelve '#' tags: the handle tag, the name tag and ten generic tags. |
| `EnhancedPostGenerator.GenerateHashtagsAsWritten` | src/pages/EnhancedPostGenerator.tsx:206-231 | As written: push the type tags after the twelve base entries, then `slice(0, 8)`. The result is the first eight base entries for every post type. |
| `EnhancedPostGenerator.TypeTagsCutByCap` | src/pages/EnhancedPostGenerator.tsx:222-230 | Under the code as written, a type tag is in the result iff the handle tag or the name tag spells it. |
| `EnhancedPostGenerator.MenuTagsLostForBellaVista` | src/pages/EnhancedPostGenerator.tsx:206-231 | For "Bella Vista" / "@bellavista_nyc", none of the four menu tags reaches the post. |
| `EnhancedPostGenerator.GenerateHashtags` | src/pages/EnhancedPostGenerator.tsx:206-231 | Corrected: eight '#' tags, namely the handle tag, the name tag, every type tag, then generic tags. A single-dish post is tagged as before. |
| `EnhancedPostGenerator.SetFormField` | src/pages/EnhancedPostGenerator.tsx:66-68 | The text field takes the value; the other fields, the items, the photo and the post type are kept. |
| `EnhancedPostGenerator.CheckForm` | src/pages/EnhancedPostGenerator.tsx:110-128 | Accepted iff (not a menu post, or at least one item) and both name and handle are set. An empty menu is reported first, with its own message. |
| `EnhancedPostGenerator.BuildPost` | src/pages/EnhancedPostGenerator.tsx:130-150 | The post holds the templates' tagline, caption and (corrected) hashtags and the style. Its colours split at ',' and join back. Every item is pictured. The single item is the first item, pictured. The customer photo is the form's, else the upload. It is well formed. |
| `EnhancedPostGenerator.EnhancedPostPage.constructor` | src/pages/EnhancedPostGenerator.tsx:49-64 | An empty menu post in the elegant style with colours "#FF6B6B,#4ECDC4", and no post. |
| `EnhancedPostGenerator.EnhancedPostPage.HandleInputChange` | src/pages/EnhancedPostGenerator.tsx:66-68 | Sets one text field. |
| `EnhancedPostGenerator.EnhancedPostPage.SetPostType` | src/pages/EnhancedPostGenerator.tsx:66-68 | Sets only the post type. |
| `EnhancedPostGenerator.EnhancedPostPage.AddMenuItem` | src/pages/EnhancedPostGenerator.tsx:70-80 | Appends one empty item; nothing else changes. |
| `EnhancedPostGenerator.EnhancedPostPage.UpdateMenuItem` | src/pages/EnhancedPostGenerator.tsx:82-89 | Updates the items as `UpdateAt` says; nothing else changes. |
| `EnhancedPostGenerator.EnhancedPostPage.RemoveMenuItem` | src/pages/EnhancedPostGenerator.tsx:91-96 | Removes an item as `RemoveAt` says; nothing else changes. |
| `EnhancedPostGenerator.EnhancedPostPage.HandleImageUpload` | src/pages/EnhancedPostGenerator.tsx:98-108 | A file becomes both the uploaded image and the form's customer photo. |
| `EnhancedPostGenerator.EnhancedPostPage.GeneratePost` | src/pages/EnhancedPostGenerator.tsx:110-158 | The outcome is the form check. A refusal keeps the old post; otherwise the post is `BuildPost` of the form. The invariant (a well-formed post) is kept. |
| `EnhancedPostGenerator.EnhancedPostPage.CopyCaption` | src/pages/EnhancedPostGenerator.tsx:245-255 | Without a post, nothing. Otherwise the caption panel's full text for the handle, caption and hashtags. |
| `EnhancedPostGenerator.EnhancedPostPage.HandleCaptionChange` | src/pages/EnhancedPostGenerator.tsx:257-259 | Replaces the caption of an existing post only. |
| `EnhancedPostGenerator.EnhancedPostPage.RegenerateCaption` | src/pages/EnhancedPostGenerator.tsx:261-277 | Does nothing without a name and a handle. Otherwise a post's caption is drawn again. |
| `QRScanner.MockItemsPictured` | src/pages/QRScanner.tsx:38-67 | Every mock item has the "/menu.webp" picture and belongs to "Svang", New York. |
| `QRScanner.ItemId` | src/pages/QRScanner.tsx:78 | A missing or empty `item` parameter means "1"; otherwise it is the parameter. |
| `QRScanner.Find` | src/pages/QRScanner.tsx:79 | `find` gives None iff no item has the id. Otherwise it gives the first item with that id. |
| `QRScanner.FindMockItem` | src/pages/QRScanner.tsx:38-79 | A mock item is found exactly by its own id. |
| `QRScanner.ScanResult` | src/pages/QRScanner.tsx:76-87 | A scan finds an item iff the id is "1", "2" or "3". With no query, the first item is found. |
| `QRScanner.Preview` | src/pages/QRScanner.tsx:386-395 | The item's texts overlaid by the post: the picture, caption, hashtags and style come from the post. |
| `QRScanner.QRScannerPage.constructor` | src/pages/QRScanner.tsx:76-87 | The item the query names, with its picture as the uploaded image, the elegant style and the default colours. |
| `QRScanner.QRScannerPage.ChooseStyle` | src/pages/QRScanner.tsx:286 | Sets only the style. |
| `QRScanner.QRScannerPage.SetBrandColors` | src/pages/QRScanner.tsx:310 | Sets only the colours. |
| `QRScanner.QRScannerPage.HandleImageUpload` | src/pages/QRScanner.tsx:89-98 | A file replaces the uploaded image. |
| `QRScanner.QRScannerPage.GeneratePost` | src/pages/QRScanner.tsx:100-124 | Nothing without an item. Otherwise the post assembled for the item, showing the upload or the item's own picture. The invariant (tags derived from the shown item, a picture) is kept. |
| `QRScanner.QRScannerPage.CopyCaption` | src/pages/QRScanner.tsx:171-181 | Without a post, nothing. Otherwise the full caption led by the item's restaurant name. |
| `QRScanner.QRScannerPage.HandleCaptionChange` | src/pages/QRScanner.tsx:183-185 | Replaces the caption of an existing post only. |
| `QRScanner.QRScannerPage.RegenerateCaption` | src/pages/QRScanner.tsx:187-203 | Does nothing without an item and a post. Otherwise the caption is drawn again for the item. |

## Left out

- Timing is left out: `setTimeout`, the `isGenerating` / `isLoading` flags and the toasts. Each handler's settled result is modelled as an immediate state change.
- The clipboard, `FileReader`, `Blob`/download links and navigation are left out. They are side effects: the model returns the text that would be copied or written, the data URL read, the path navigated to.
- `Math.random` and `Date.now` are not modelled. They become caller-supplied picks and ids.
- JSX layout, Tailwind class strings beyond the style tables, and icons are left out. Only the data the views show is modelled.
- String lengths are counted in Unicode scalar values, not UTF-16 code units. So `substring` cuts and `charAt(0)` differ from JavaScript for text with emoji outside the Basic Multilingual Plane.
- `styles[key]` and `taglines[key]` also find `Object.prototype` keys such as "constructor". The model treats every key other than the four style keywords as unknown.
- `undefined` interpolated into a tag ("#undefined") is not modelled. Every optional string is modelled as "", which is what the forms hold.
- In the enhanced page the preview passes a record without `menuItem`/`description`, and the mockup calls `description.length` on it. That runtime failure is not modelled.
- The mockups' `onCopyCaption` and similar handler props are ignored by the components, so they are not modelled.
- React's stale closures and batched updates are not modelled.
- The dashboard and landing pages (`Dashboard.tsx`, `Index.tsx`) hold only static display data and navigation, so they are not modelled.
- The enhanced page's `postData.tagline`, `caption` and `hashtags` state fields are never read or written after initialisation, so they are not modelled.
- The long fixed texts (the enhanced page's captions, the content records' captions, the menu builder's suggestions) are kept as named constants. Proofs about them use only their leading characters or their lengths.
- The content preview's post/story tab switch and its early `return null` render are left out, because they are display state only.
- `EnhancedPostGenerator.GenerateHashtags` is the corrected order (see Findings). The code as written is `GenerateHashtagsAsWritten`.
- EnhancedPostGenerator.BuildPost: stores the corrected hashtag list (`GenerateHashtags`), not the source's first eight base entries (`GenerateHashtagsAsWritten`). For a menu or customer-photo post the stored tags therefore differ from the program's, from the third tag on.
- EnhancedPostGenerator.EnhancedPostPage.GeneratePost: stores the post `BuildPost` builds, so it holds the corrected hashtag list too. The caption that `CopyCaption` then copies ends with those corrected tags.

## Findings

| source | as written | input that shows it | evidently intended | confidence | as-written member | corrected member |
|---|---|---|---|---|---|---|
| src/pages/EnhancedPostGenerator.tsx:206-231 | The post-type tags are pushed after the twelve base entries, then the list is cut to its first eight, so no post-type tag can survive. | A menu post for "Bella Vista" with handle "@bellavista_nyc": the tags are the handle tag, the name tag and six generic tags, and "#Menu", "#Dining", "#ChefSpecial" and "#FineDining" are all lost. | A menu or customer-photo post carries its four type tags within the eight. | medium, not executed | `EnhancedPostGenerator.GenerateHashtagsAsWritten` (with `EnhancedPostGenerator.MenuTagsLostForBellaVista`) | `EnhancedPostGenerator.GenerateHashtags` |
